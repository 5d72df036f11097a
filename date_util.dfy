/**
 * Week arithmetic of `getWeekDates`. A date is an integer day number whose
 * weekday is its remainder modulo 7, with 0 standing for Sunday as `getDay()` does.
 */
module DateUtil {

  const DaysPerWeek: nat := 7

  /** `getDay()`: 0 for Sunday, up to 6 for Saturday. */
  function Weekday(d: int): (w: nat)
    ensures w < DaysPerWeek
    ensures (d - w) % DaysPerWeek == 0
  {
    d % DaysPerWeek
  }

  /** `today.getDate() - today.getDay() + weekOffset * 7`: the Sunday that opens the shown week. */
  function WeekStart(today: int, weekOffset: int): (s: int)
    ensures Weekday(s) == 0
    ensures s <= today + DaysPerWeek * weekOffset < s + DaysPerWeek
  {
    today - Weekday(today) + DaysPerWeek * weekOffset
  }

  /** The seven dates of the shown week, Sunday first, built one day at a time as the source's loop does. */
  method WeekDates(today: int, weekOffset: int) returns (dates: seq<int>)
    ensures |dates| == DaysPerWeek
    ensures dates[0] == today - Weekday(today) + DaysPerWeek * weekOffset && Weekday(dates[0]) == 0
    ensures forall i :: 0 <= i < |dates| ==> dates[i] == dates[0] + i
    ensures forall i :: 0 < i < |dates| ==> dates[i] == dates[i - 1] + 1
    ensures forall d :: d in dates <==> dates[0] <= d < dates[0] + DaysPerWeek
    ensures weekOffset == 0 ==> today in dates
  {
    var start := WeekStart(today, weekOffset);
    dates := [];
    var i := 0;
    while i < DaysPerWeek
      invariant 0 <= i <= DaysPerWeek && |dates| == i
      invariant forall j :: 0 <= j < i ==> dates[j] == start + j
    {
      dates := dates + [start + i];
      i := i + 1;
    }
    forall d | start <= d < start + DaysPerWeek
      ensures d in dates
    {
      assert dates[d - start] == d;
    }
  }

  /** Moving one week forward moves every shown date seven days on. */
  lemma NextWeekShifts(today: int, weekOffset: int)
    ensures WeekStart(today, weekOffset + 1) == WeekStart(today, weekOffset) + DaysPerWeek
  {
  }

  /** Every day is shown in exactly one week: the one whose offset is its distance from this week in whole weeks. */
  lemma WeekOfDay(today: int, weekOffset: int, d: int)
    ensures WeekStart(today, weekOffset) <= d < WeekStart(today, weekOffset) + DaysPerWeek
        <==> weekOffset == (d - WeekStart(today, 0)) / DaysPerWeek
  {
  }
}
