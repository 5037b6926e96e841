/** useQuitStore.ts, the utility half: the elapsed clean time since the
    quit date, its text, and the benefit derived from it. The difference
    between the store's current time and the parsed quit date is a
    parameter, in milliseconds. */
module Elapsed {
  import opened Wrappers
  import opened Text
  import opened QuitStore
  import opened Arith

  const MsPerSecond: nat := 1000
  const MsPerMinute: nat := 60 * MsPerSecond
  const MsPerHour: nat := 60 * MsPerMinute
  const MsPerDay: nat := 24 * MsPerHour

  datatype TimeElapsed = TimeElapsed(days: int, hours: int, minutes: int, seconds: int)

  /** The milliseconds a decomposition stands for. */
  function TotalMs(t: TimeElapsed): int {
    t.days * MsPerDay + t.hours * MsPerHour + t.minutes * MsPerMinute + t.seconds * MsPerSecond
  }

  /** calculateTimeElapsed: whole days, then the hours, minutes and seconds
      left within the day; together they come within a second of the
      difference. */
  function CalculateTimeElapsed(diffMs: nat): (t: TimeElapsed)
    ensures 0 <= t.days && 0 <= t.hours < 24 && 0 <= t.minutes < 60 && 0 <= t.seconds < 60
    ensures TotalMs(t) <= diffMs < TotalMs(t) + MsPerSecond
  {
    var withinDay := diffMs % MsPerDay;
    var withinHour := withinDay % MsPerHour;
    var withinMinute := withinHour % MsPerMinute;
    var e := TimeElapsed(diffMs / MsPerDay, withinDay / MsPerHour, withinHour / MsPerMinute,
                         withinMinute / MsPerSecond);
    assert diffMs == e.days * MsPerDay + withinDay;
    assert withinDay == e.hours * MsPerHour + withinHour;
    assert withinHour == e.minutes * MsPerMinute + withinMinute;
    assert withinMinute == e.seconds * MsPerSecond + withinMinute % MsPerSecond;
    e
  }

  /** The decomposition is the only one with fields in range that comes
      within a second of the difference. */
  lemma TimeElapsedIsUnique(diffMs: nat, t: TimeElapsed)
    requires 0 <= t.days && 0 <= t.hours < 24 && 0 <= t.minutes < 60 && 0 <= t.seconds < 60
    requires TotalMs(t) <= diffMs < TotalMs(t) + MsPerSecond
    ensures t == CalculateTimeElapsed(diffMs)
  {
    var withinMinute := diffMs - TotalMs(t) + t.seconds * MsPerSecond;
    var withinHour := withinMinute + t.minutes * MsPerMinute;
    var withinDay := withinHour + t.hours * MsPerHour;
    assert 0 <= withinMinute < MsPerMinute;
    assert 0 <= withinHour < MsPerHour;
    assert 0 <= withinDay < MsPerDay;
    DivIsUnique(diffMs, MsPerDay, t.days);
    assert diffMs % MsPerDay == withinDay;
    DivIsUnique(withinDay, MsPerHour, t.hours);
    assert withinDay % MsPerHour == withinHour;
    DivIsUnique(withinHour, MsPerMinute, t.minutes);
    assert withinHour % MsPerMinute == withinMinute;
    DivIsUnique(withinMinute, MsPerSecond, t.seconds);
  }

  /** The units of a decomposition, largest first, with their suffixes. */
  function Units(t: TimeElapsed): seq<(int, string)> {
    [(t.days, "d"), (t.hours, "h"), (t.minutes, "m"), (t.seconds, "s")]
  }

  /** Drops leading units that are not positive, keeping at least the last. */
  function FromLargestPositive(units: seq<(int, string)>): (r: seq<(int, string)>)
    requires |units| >= 1
    ensures 1 <= |r| <= |units| && r == units[|units| - |r|..]
    ensures |r| > 1 ==> r[0].0 > 0
    ensures forall i :: 0 <= i < |units| - |r| ==> units[i].0 <= 0
  {
    if |units| == 1 || units[0].0 > 0 then units
    else
      var rest := FromLargestPositive(units[1..]);
      assert forall i :: 1 <= i < |units| - |rest| ==> units[i] == units[1..][i - 1];
      rest
  }

  /** The units written as `${value}${suffix}`, separated by single spaces. */
  function Render(units: seq<(int, string)>): string {
    if units == [] then ""
    else if |units| == 1 then IntToString(units[0].0) + units[0].1
    else IntToString(units[0].0) + units[0].1 + " " + Render(units[1..])
  }

  /** Regrouping of the template strings of formatTimeElapsed. */
  lemma Regroup(d: string, h: string, m: string, s: string)
    ensures m + "m " + s + "s" == (m + "m") + " " + (s + "s")
    ensures h + "h " + m + "m " + s + "s" == (h + "h") + " " + ((m + "m") + " " + (s + "s"))
    ensures d + "d " + h + "h " + m + "m " + s + "s"
         == (d + "d") + " " + ((h + "h") + " " + ((m + "m") + " " + (s + "s")))
  {
  }

  /** formatTimeElapsed: the text starts at the largest positive unit
      (seconds are always shown) and lists every smaller unit after it. */
  function FormatTimeElapsed(t: TimeElapsed): (r: string)
    ensures r == Render(FromLargestPositive(Units(t)))
  {
    var d, h, m, s := IntToString(t.days), IntToString(t.hours), IntToString(t.minutes), IntToString(t.seconds);
    RenderedUnits(t, d, h, m, s);
    if t.days > 0 then d + "d " + h + "h " + m + "m " + s + "s"
    else if t.hours > 0 then h + "h " + m + "m " + s + "s"
    else if t.minutes > 0 then m + "m " + s + "s"
    else s + "s"
  }

  /** The rendering of the units from the largest positive one, spelled out
      case by case as formatTimeElapsed's templates. */
  lemma RenderedUnits(t: TimeElapsed, d: string, h: string, m: string, s: string)
    requires d == IntToString(t.days) && h == IntToString(t.hours)
    requires m == IntToString(t.minutes) && s == IntToString(t.seconds)
    ensures Render(FromLargestPositive(Units(t))) ==
      if t.days > 0 then d + "d " + h + "h " + m + "m " + s + "s"
      else if t.hours > 0 then h + "h " + m + "m " + s + "s"
      else if t.minutes > 0 then m + "m " + s + "s"
      else s + "s"
  {
    var u := Units(t);
    var us := [(t.seconds, "s")];
    var ums := [(t.minutes, "m")] + us;
    var uhms := [(t.hours, "h")] + ums;
    assert u[1..] == uhms && uhms[1..] == ums && ums[1..] == us;
    var rs := s + "s";
    var rms := (m + "m") + " " + rs;
    var rhms := (h + "h") + " " + rms;
    assert Render(us) == rs;
    assert Render(ums) == rms;
    assert Render(uhms) == rhms;
    Regroup(d, h, m, s);
    if t.days > 0 {
      assert FromLargestPositive(u) == u;
      assert Render(u) == (d + "d") + " " + rhms;
    } else {
      assert FromLargestPositive(u) == FromLargestPositive(uhms);
      if t.hours > 0 {
        assert FromLargestPositive(uhms) == uhms;
      } else {
        assert FromLargestPositive(uhms) == FromLargestPositive(ums);
        if t.minutes > 0 {
          assert FromLargestPositive(ums) == ums;
        } else {
          assert FromLargestPositive(ums) == us;
        }
      }
    }
  }

  /** 0 days, 0 hours, 5 minutes and 3 seconds read "5m 3s". */
  lemma FormatExample()
    ensures FormatTimeElapsed(CalculateTimeElapsed(5 * MsPerMinute + 3 * MsPerSecond)) == "5m 3s"
  {
    var t := CalculateTimeElapsed(5 * MsPerMinute + 3 * MsPerSecond);
    TimeElapsedIsUnique(5 * MsPerMinute + 3 * MsPerSecond, TimeElapsed(0, 0, 5, 3));
    assert IntToString(5) == "5" && IntToString(3) == "3";
  }

  /** The unit of a benefit: a finished label, or a currency symbol to be
      followed by the en-US rendering of the total. */
  datatype BenefitUnit = Label(text: string) | Currency(symbol: string)

  datatype BenefitCalculation = BenefitCalculation(
    totalAmount: real, dailyAmount: real, unit: BenefitUnit, kind: BenefitType)

  /** `Math.max(0, days + hours / 24)`: never negative, and for a
      non-negative decomposition the whole hours in days; minutes and
      seconds are ignored. */
  function TotalDays(t: TimeElapsed): (r: real)
    ensures r >= 0.0
    ensures 0 <= t.days && 0 <= t.hours ==> 24.0 * r == (24 * t.days + t.hours) as real
  {
    var d := t.days as real + t.hours as real / 24.0;
    if d < 0.0 then 0.0 else d
  }

  /** The elapsed days times the daily amount. For a decomposition of a
      non-negative difference this is exact in whole hours: 24 times the
      total is (24 days + hours) times the daily amount, and the residual
      minutes and seconds do not count. */
  function BenefitTotal(t: TimeElapsed, dailyAmount: real): (total: real)
    ensures 0 <= t.days && 0 <= t.hours ==>
      24.0 * total == ((24 * t.days + t.hours) as real) * dailyAmount
  {
    var days := TotalDays(t);
    ScaleProduct(days, dailyAmount);
    days * dailyAmount
  }

  lemma ScaleProduct(x: real, y: real)
    ensures 24.0 * (x * y) == (24.0 * x) * y
  {
  }

  /** Truncation toward zero, as JavaScript's `%` uses it. */
  function Trunc(x: real): int {
    if x >= 0.0 then x.Floor else -((-x).Floor)
  }

  /** JavaScript's `x % 60` on numbers: the sign follows the dividend. */
  function Remainder60(x: real): real {
    x - 60.0 * (Trunc(x / 60.0) as real)
  }

  /** The label of a time benefit of `totalMinutes` minutes: the whole
      minutes split into hours and the minutes left over, at least an hour as
      "{h}h {m}m" with 0 <= m < 60, below an hour as "{m}m". */
  function TimeLabel(totalMinutes: real): (r: string)
    ensures totalMinutes >= 60.0 ==>
      var h := (totalMinutes / 60.0).Floor;
      var m := totalMinutes.Floor - 60 * h;
      h >= 1 && 0 <= m < 60 && r == NatToString(h) + "h " + NatToString(m) + "m"
    ensures totalMinutes < 60.0 ==> r == IntToString(totalMinutes.Floor) + "m"
  {
    if totalMinutes >= 60.0 then
      var hours := (totalMinutes / 60.0).Floor;
      var minutes := Remainder60(totalMinutes).Floor;
      assert hours as real <= totalMinutes / 60.0 < hours as real + 1.0;
      assert 60.0 * (hours as real) <= totalMinutes < 60.0 * (hours as real) + 60.0;
      assert Trunc(totalMinutes / 60.0) == hours;
      assert minutes == totalMinutes.Floor - 60 * hours;
      if hours > 0 then IntToString(hours) + "h " + IntToString(minutes) + "m"
      else IntToString(totalMinutes.Floor) + "m"
    else IntToString(totalMinutes.Floor) + "m"
  }

  /** calculateBenefit: None when the type or a non-zero amount is missing;
      otherwise the elapsed days times the daily amount. */
  function CalculateBenefit(item: QuitItem, diffMs: nat): (r: Option<BenefitCalculation>)
    ensures r.None? <==>
      item.benefitType.None? || item.benefitAmount.None? || item.benefitAmount.value == 0.0
    ensures r.Some? ==>
      r.value.kind == item.benefitType.value && r.value.dailyAmount == item.benefitAmount.value
      && r.value.totalAmount == BenefitTotal(CalculateTimeElapsed(diffMs), item.benefitAmount.value)
    ensures r.Some? && r.value.kind == Time ==> r.value.unit == Label(TimeLabel(r.value.totalAmount))
    ensures r.Some? && r.value.kind == Money ==>
      r.value.unit == Currency(if item.benefitUnit.None? || item.benefitUnit.value == "" then "$"
                               else item.benefitUnit.value)
  {
    if item.benefitType.None? || item.benefitAmount.None? || item.benefitAmount.value == 0.0 then None
    else
      var amount := item.benefitAmount.value;
      var total := BenefitTotal(CalculateTimeElapsed(diffMs), amount);
      match item.benefitType.value
      case Time =>
        Some(BenefitCalculation(total, amount, Label(TimeLabel(total)), Time))
      case Money =>
        var symbol := if item.benefitUnit.None? || item.benefitUnit.value == "" then "$"
                      else item.benefitUnit.value;
        Some(BenefitCalculation(total, amount, Currency(symbol), Money))
  }

  /** 30 minutes a day over exactly three days is "1h 30m". */
  lemma TimeBenefitExample(item: QuitItem)
    requires item.benefitType == Some(Time) && item.benefitAmount == Some(30.0)
    ensures CalculateBenefit(item, 3 * MsPerDay).value.unit == Label("1h 30m")
  {
    TimeElapsedIsUnique(3 * MsPerDay, TimeElapsed(3, 0, 0, 0));
    assert TotalDays(TimeElapsed(3, 0, 0, 0)) == 3.0;
    assert (90.0 / 60.0).Floor == 1;
    assert NatToString(30) == "30";
  }
}
