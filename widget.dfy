/**
 * The home-screen widget's timeline provider
 * (ShiftTrackWidget/ShiftTrackWidget.swift, `Provider.getTimeline`).
 *
 * The widget recomputes the weekly summary on its own, with its own week
 * arithmetic. Everything it reads from outside is a parameter: the stored
 * wage, tax rate and week-start day, the decoded entry list (`None` when
 * there is no stored data or it does not decode), the calendar weekday of
 * today (1 = Sunday ... 7 = Saturday), and the two readings of the clock.
 */
module Widget {
  import opened Options
  import opened Entries

  /** The timeline is reloaded this long after it is made. */
  const RefreshSeconds: int := 30 * 60

  /** One summary shown by the widget. */
  datatype SimpleEntry = SimpleEntry(date: Instant, hoursWorked: real, hoursRemaining: real, netEarnings: real)

  /** What the provider hands back: its entries and when to ask again. */
  datatype Timeline = Timeline(entries: seq<SimpleEntry>, reloadAfter: Instant)

  /** Swift's `a % 7` on integers: truncates toward zero, so the sign follows `a`. */
  function SwiftRemainder7(a: int): (r: int)
    ensures a >= 0 ==> 0 <= r < 7
    ensures a < 0 ==> -7 < r <= 0
    ensures (a - r) % 7 == 0
  {
    if a >= 0 then a % 7 else -((-a) % 7)
  }

  /** `(weekday + 7 - weekStartDay) % 7`: how many days back the week began. */
  function DaysToSubtract(weekday: int, weekStartDay: int): (d: int)
    ensures 1 <= weekday <= 7 && 1 <= weekStartDay <= 7 ==> 0 <= d <= 6
    ensures 1 <= weekday <= 7 && 1 <= weekStartDay <= 7 ==> (d == 0 <==> weekday == weekStartDay)
    ensures (weekday - d - weekStartDay) % 7 == 0
    ensures weekStartDay > weekday + 7 ==> d <= 0
  {
    SwiftRemainder7(weekday + 7 - weekStartDay)
  }

  /**
   * The week's first instant: `daysToSubtract` days before now, at now's
   * time of day. It is the latest such instant, at most six days back,
   * whose calendar weekday (1 = Sunday ... 7 = Saturday) is `weekStartDay`.
   */
  function WeekStart(today: Instant, weekday: int, weekStartDay: int): (start: Instant)
    ensures 1 <= weekday <= 7 && 1 <= weekStartDay <= 7
            ==> today - 6 * SecondsPerDay <= start <= today
    ensures (today - start) % SecondsPerDay == 0
    ensures (weekday - (today - start) / SecondsPerDay - weekStartDay) % 7 == 0
  {
    today - DaysToSubtract(weekday, weekStartDay) * SecondsPerDay
  }

  /** True when the entry lies wholly inside [weekStart, weekStart + 6 days]. */
  predicate WhollyInside(e: TimeEntry, weekStart: Instant) {
    e.startTime >= weekStart && e.endTime <= weekStart + 6 * SecondsPerDay
  }

  /** The entries the widget counts, in list order. */
  function Counted(entries: seq<TimeEntry>, weekStart: Instant): (r: seq<TimeEntry>)
    ensures |r| <= |entries|
    ensures forall e :: e in r <==> e in entries && WhollyInside(e, weekStart)
  {
    if entries == [] then []
    else
      (if WhollyInside(entries[0], weekStart) then [entries[0]] else [])
      + Counted(entries[1..], weekStart)
  }

  /** Every counted entry keeps its multiplicity; every other entry is dropped. */
  lemma {:induction false} CountedCount(entries: seq<TimeEntry>, weekStart: Instant, x: TimeEntry)
    ensures multiset(Counted(entries, weekStart))[x]
            == if WhollyInside(x, weekStart) then multiset(entries)[x] else 0
  {
    if entries != [] {
      var head := if WhollyInside(entries[0], weekStart) then [entries[0]] else [];
      CountedCount(entries[1..], weekStart, x);
      assert entries == [entries[0]] + entries[1..];
      assert multiset(Counted(entries, weekStart)) == multiset(head) + multiset(Counted(entries[1..], weekStart));
    }
  }

  /**
   * Sum of the entries' hours, accumulated from the left. The reducer at
   * line 35 is written `{ $0 + $0.hours }`, naming the accumulator twice;
   * this is the sum of entry hours that it evidently means.
   */
  function SumHours(entries: seq<TimeEntry>): (total: real)
    ensures (forall e :: e in entries ==> e.startTime <= e.endTime) ==> total >= 0.0
  {
    if entries == [] then 0.0
    else SumHours(entries[..|entries| - 1]) + Hours(entries[|entries| - 1])
  }

  /** Hours worked this week as the widget sees them; zero without stored entries. */
  function WidgetHoursWorked(stored: Option<seq<TimeEntry>>, weekday: int, weekStartDay: int, today: Instant): (h: real)
    ensures stored.None? ==> h == 0.0
    ensures stored.Some? && (forall e :: e in stored.value ==> e.startTime <= e.endTime) ==> h >= 0.0
  {
    match stored
    case None => 0.0
    case Some(entries) => SumHours(Counted(entries, WeekStart(today, weekday, weekStartDay)))
  }

  /**
   * Builds the widget's single-entry timeline: hours worked, hours left
   * under 40, pay after tax, reloaded 30 minutes after `currentDate`.
   */
  function GetTimeline(hourlyWage: real, taxRate: real, stored: Option<seq<TimeEntry>>,
                       weekday: int, weekStartDay: int, today: Instant, currentDate: Instant): (t: Timeline)
    ensures |t.entries| == 1 && t.entries[0].date == currentDate
    ensures t.reloadAfter - currentDate == 30 * 60
    ensures t.entries[0].hoursWorked == WidgetHoursWorked(stored, weekday, weekStartDay, today)
    ensures t.entries[0].hoursRemaining >= 0.0
    ensures t.entries[0].hoursRemaining == 0.0 <==> t.entries[0].hoursWorked >= 40.0
    ensures t.entries[0].hoursRemaining > 0.0 ==> t.entries[0].hoursRemaining + t.entries[0].hoursWorked == 40.0
    ensures t.entries[0].netEarnings
            == t.entries[0].hoursWorked * hourlyWage - t.entries[0].hoursWorked * hourlyWage * taxRate
    ensures stored.None? ==> t.entries[0] == SimpleEntry(currentDate, 0.0, 40.0, 0.0)
  {
    var hoursWorked := WidgetHoursWorked(stored, weekday, weekStartDay, today);
    var hoursRemaining := if 0.0 >= 40.0 - hoursWorked then 0.0 else 40.0 - hoursWorked;
    var netEarnings := hoursWorked * hourlyWage * (1.0 - taxRate);
    assert hoursWorked == 0.0 ==> netEarnings == 0.0;
    Timeline([SimpleEntry(currentDate, hoursWorked, hoursRemaining, netEarnings)], currentDate + RefreshSeconds)
  }
}
