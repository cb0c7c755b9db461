/** The month grid (`CalendarGridView`): blank cells up to the weekday of the
    first of the month, in a week that starts on Monday, then one cell per day
    of the month; and the phase icon drawn in each day's cell (`MoonIcon`). */
module CalendarGrid {
  import opened SwiftCore
  import opened MoonPhases
  import Astronomy

  /** A date, as a count of days; adding days to a date is addition. */
  type Date = int

  /** A Swift `Range<Int>` of day numbers, `lower..<upper`. */
  datatype DayRange = DayRange(lower: int, upper: int)

  /** The weekday numbering of the calendar: 1 is Sunday, 2 Monday, ..., 7 Saturday. */
  predicate IsWeekday(weekday: int) {
    1 <= weekday <= 7
  }

  /** `(weekday - 2 + 7) % 7`: how many blank cells precede the first day in a
      Monday-first week, that is, how many days the weekday lies after Monday. */
  function Padding(weekday: int): (p: int)
    ensures IsWeekday(weekday) ==> 0 <= p <= 6
    ensures IsWeekday(weekday) ==> p == (if weekday == 1 then 6 else weekday - 2)
  {
    IntRem(weekday - 2 + 7, 7)
  }

  /** The cases the source's comments spell out. */
  lemma PaddingExamples()
    ensures Padding(2) == 0 && Padding(1) == 6 && Padding(3) == 1
  {
  }

  /** The dates of the non-blank cells, in grid order. */
  function Present(cells: seq<Option<Date>>): (dates: seq<Date>)
    ensures |dates| <= |cells|
    ensures forall i :: 0 <= i < |dates| ==> Some(dates[i]) in cells
    ensures forall i :: 0 <= i < |cells| && cells[i].Some? ==> cells[i].value in dates
  {
    if |cells| == 0 then []
    else if cells[0].Some? then [cells[0].value] + Present(cells[1..])
    else Present(cells[1..])
  }

  /** `count` consecutive dates from `first`. */
  function Consecutive(first: Date, count: nat): (dates: seq<Date>)
    ensures |dates| == count
  {
    seq(count, k => first + k)
  }

  /** The shape of a month grid: `padding` blank cells, then `count` cells
      holding consecutive dates from `first`. */
  ghost predicate IsGrid(cells: seq<Option<Date>>, padding: nat, first: Date, count: nat) {
    && |cells| == padding + count
    && (forall i :: 0 <= i < padding ==> cells[i] == None)
    && (forall i :: padding <= i < |cells| ==> cells[i] == Some(first + (i - padding)))
  }

  /** In a month grid, the k-th non-blank cell holds the first date plus k days. */
  lemma {:induction false} GridDates(cells: seq<Option<Date>>, padding: nat, first: Date, count: nat)
    requires IsGrid(cells, padding, first, count)
    ensures Present(cells) == Consecutive(first, count)
    decreases |cells|
  {
    if padding > 0 {
      assert cells[0] == None;
      assert IsGrid(cells[1..], padding - 1, first, count);
      GridDates(cells[1..], padding - 1, first, count);
    } else if count > 0 {
      assert cells[0] == Some(first);
      assert IsGrid(cells[1..], 0, first + 1, count - 1);
      GridDates(cells[1..], 0, first + 1, count - 1);
      assert Consecutive(first, count) == [first] + Consecutive(first + 1, count - 1);
    }
  }

  class CalendarGridView {
    /** The cells of the grid: `None` for a blank cell. */
    const days: seq<Option<Date>>

    /** `init()`, given what the calendar reports for the current month: the
        range of its day numbers and its first day with that day's weekday,
        either of which may be unavailable. */
    constructor (range: Option<DayRange>, startOfMonth: Option<(Date, int)>)
      requires range.Some? ==> range.value.lower <= range.value.upper
      requires startOfMonth.Some? ==> IsWeekday(startOfMonth.value.1)
      ensures range.None? || startOfMonth.None? ==> days == []
      ensures range.Some? && startOfMonth.Some? ==>
                var padding := Padding(startOfMonth.value.1);
                var first := startOfMonth.value.0 + range.value.lower - 1;
                var count := range.value.upper - range.value.lower;
                && IsGrid(days, padding, first, count)
                && Present(days) == Consecutive(first, count)
      ensures forall i, j :: 0 <= i < j < |days| && days[i].Some? && days[j].Some? ==>
                days[i].value < days[j].value
    {
      if range.None? || startOfMonth.None? {
        days := [];
      } else {
        var dayRange := range.value;
        var (start, weekday) := startOfMonth.value;

        var dates: seq<Option<Date>> := [];
        var padding := Padding(weekday);
        for i := 0 to padding
          invariant |dates| == i
          invariant forall m :: 0 <= m < i ==> dates[m] == None
        {
          dates := dates + [None];
        }

        for day := dayRange.lower to dayRange.upper
          invariant |dates| == padding + (day - dayRange.lower)
          invariant forall m :: 0 <= m < padding ==> dates[m] == None
          invariant forall i :: padding <= i < |dates| ==>
                      dates[i] == Some(start + dayRange.lower - 1 + (i - padding))
        {
          dates := dates + [Some(start + (day - 1))];
        }
        days := dates;
        GridDates(dates, padding, start + dayRange.lower - 1, dayRange.upper - dayRange.lower);
      }
    }
  }

  /** `MoonIcon.iconName`: the symbol of the phase on a given phase angle. */
  function IconName(phaseAngle: real): (icon: string)
    ensures icon == Astronomy.MoonPhaseIcon(MoonPhases.FromDegree(phaseAngle))
    ensures icon != Astronomy.WarningIcon
  {
    match MoonPhases.FromDegree(phaseAngle)
    case NewMoon => "moonphase.new.moon"
    case WaxingCrescent => "moonphase.waxing.crescent"
    case FirstQuarter => "moonphase.first.quarter"
    case WaxingGibbous => "moonphase.waxing.gibbous"
    case FullMoon => "moonphase.full.moon"
    case WaningGibbous => "moonphase.waning.gibbous"
    case LastQuarter => "moonphase.last.quarter"
    case WaningCrescent => "moonphase.waning.crescent"
    case Error => "exclamationmark.triangle"
  }
}
