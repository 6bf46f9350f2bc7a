/**
 * How the widget's recomputation of the weekly summary relates to the
 * app's (ShiftTrackWidget/ShiftTrackWidget.swift against
 * ShiftTrack/Models/TimeManager.swift). The two disagree in two places,
 * stated here as they are rather than reconciled:
 *  - the widget numbers today's weekday from Sunday = 1, while the
 *    week-start setting numbers Monday = 1, so its week begins one day
 *    before the configured day;
 *  - the widget counts entries lying wholly inside [start, start + 6 days],
 *    the app counts entries starting inside [start, start + 7 days).
 */
module WidgetVsApp {
  import opened Options
  import opened Entries
  import WeekAggregator
  import Widget
  import Manager

  /** The app's number (1 = Monday ... 7 = Sunday) of a calendar weekday (1 = Sunday ... 7 = Saturday). */
  function MondayNumber(calendarWeekday: int): (m: int)
    requires 1 <= calendarWeekday <= 7
    ensures 1 <= m <= 7
    ensures (m - calendarWeekday + 1) % 7 == 0
  {
    if calendarWeekday == 1 then 7 else calendarWeekday - 1
  }

  /** The calendar weekday `days` days before a day whose calendar weekday is `weekday`. */
  function WeekdayDaysBefore(weekday: int, days: int): (w: int)
    ensures 1 <= w <= 7
    ensures (weekday - days - w) % 7 == 0
  {
    (weekday - 1 - days) % 7 + 1
  }

  /**
   * With both numbers in range, the widget's week begins on the calendar
   * weekday equal to the setting, which in the setting's own numbering is
   * the day before the configured one: never the configured day itself.
   */
  lemma WidgetWeekBeginsDayEarly(weekday: int, weekStartDay: int)
    requires 1 <= weekday <= 7 && 1 <= weekStartDay <= 7
    ensures WeekdayDaysBefore(weekday, Widget.DaysToSubtract(weekday, weekStartDay)) == weekStartDay
    ensures MondayNumber(WeekdayDaysBefore(weekday, Widget.DaysToSubtract(weekday, weekStartDay)))
            == if weekStartDay == 1 then 7 else weekStartDay - 1
  {
    var d := Widget.DaysToSubtract(weekday, weekStartDay);
    if weekday >= weekStartDay {
      assert d == weekday - weekStartDay;
    } else {
      assert d == weekday + 7 - weekStartDay;
    }
  }

  /**
   * The instant the widget filters from falls on the calendar weekday
   * numbered like the setting, and on the configured day's predecessor in
   * the setting's own numbering.
   */
  lemma WidgetWeekStartWeekday(today: Instant, weekday: int, weekStartDay: int)
    requires 1 <= weekday <= 7 && 1 <= weekStartDay <= 7
    ensures var days := (today - Widget.WeekStart(today, weekday, weekStartDay)) / SecondsPerDay;
            WeekdayDaysBefore(weekday, days) == weekStartDay
            && MondayNumber(WeekdayDaysBefore(weekday, days)) == if weekStartDay == 1 then 7 else weekStartDay - 1
  {
    var d := Widget.DaysToSubtract(weekday, weekStartDay);
    assert today - Widget.WeekStart(today, weekday, weekStartDay) == d * SecondsPerDay;
    assert (d * SecondsPerDay) / SecondsPerDay == d;
    WidgetWeekBeginsDayEarly(weekday, weekStartDay);
  }

  /** The widget's hour-by-hour sum is the app's seconds total over 3600. */
  lemma {:induction false} SumHoursMatchesSeconds(entries: seq<TimeEntry>)
    ensures Widget.SumHours(entries) * SecondsPerHour == WeekAggregator.TotalSeconds(entries) as real
  {
    if entries != [] {
      SumHoursMatchesSeconds(entries[..|entries| - 1]);
    }
  }

  /**
   * Every entry the widget counts lies in the app's week, provided it does
   * not end before it starts.
   */
  lemma WidgetEntryInAppWeek(e: TimeEntry, weekStart: Instant)
    requires e.startTime <= e.endTime
    requires Widget.WhollyInside(e, weekStart)
    ensures WeekAggregator.StartsInWeek(e, weekStart)
  {
  }

  /** For the same week start, the widget's seconds never exceed the app's. */
  lemma {:induction false} CountedSecondsWithinApp(entries: seq<TimeEntry>, weekStart: Instant)
    requires forall e :: e in entries ==> e.startTime <= e.endTime
    ensures WeekAggregator.TotalSeconds(Widget.Counted(entries, weekStart))
            <= WeekAggregator.TotalSeconds(WeekAggregator.InWeek(entries, weekStart))
  {
    if entries != [] {
      var x, rest := entries[0], entries[1..];
      assert x in entries;
      assert forall e :: e in rest ==> e in entries;
      CountedSecondsWithinApp(rest, weekStart);
      var cx := if Widget.WhollyInside(x, weekStart) then [x] else [];
      var ix := if WeekAggregator.StartsInWeek(x, weekStart) then [x] else [];
      WeekAggregator.TotalSecondsAppend(cx, Widget.Counted(rest, weekStart));
      WeekAggregator.TotalSecondsAppend(ix, WeekAggregator.InWeek(rest, weekStart));
      assert WeekAggregator.TotalSeconds([x]) == Duration(x) by {
        assert [x][..0] == [];
      }
    }
  }

  /**
   * For the same week start and entries that do not run backwards, the
   * widget never reports more hours than the app.
   */
  lemma WidgetHoursAtMostApp(entries: seq<TimeEntry>, weekStart: Instant)
    requires forall e :: e in entries ==> e.startTime <= e.endTime
    ensures Widget.SumHours(Widget.Counted(entries, weekStart))
            <= WeekAggregator.HoursIn(entries, Some(weekStart))
  {
    CountedSecondsWithinApp(entries, weekStart);
    SumHoursMatchesSeconds(Widget.Counted(entries, weekStart));
  }

  /**
   * The windows do differ: every positive-length shift that starts on the
   * week's seventh day counts for the app and not for the widget.
   */
  lemma SeventhDayShiftOnlyInApp(e: TimeEntry, weekStart: Instant)
    requires weekStart + 6 * SecondsPerDay <= e.startTime < weekStart + 7 * SecondsPerDay
    requires e.startTime < e.endTime
    ensures WeekAggregator.StartsInWeek(e, weekStart)
    ensures !Widget.WhollyInside(e, weekStart)
  {
  }

  /**
   * The widget's pay is the app's after-tax pay of its own gross, so it
   * lies in [0, gross] whenever the gross is non-negative and the rate is
   * in [0, 1].
   */
  lemma WidgetNetIsAfterTax(hourlyWage: real, taxRate: real, stored: Option<seq<TimeEntry>>,
                            weekday: int, weekStartDay: int, today: Instant, currentDate: Instant)
    ensures var s := Widget.GetTimeline(hourlyWage, taxRate, stored, weekday, weekStartDay, today, currentDate).entries[0];
            s.netEarnings == Manager.AfterTax(s.hoursWorked * hourlyWage, taxRate)
    ensures var s := Widget.GetTimeline(hourlyWage, taxRate, stored, weekday, weekStartDay, today, currentDate).entries[0];
            s.hoursWorked * hourlyWage >= 0.0 && 0.0 <= taxRate <= 1.0
            ==> 0.0 <= s.netEarnings <= s.hoursWorked * hourlyWage
  {
  }
}
