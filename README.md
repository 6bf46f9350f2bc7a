# ShiftTrack shift log and weekly summary, in Dafny

ShiftTrack logs work shifts and shows the current week's hours worked, the
hours left under a fixed 40-hour cap, and gross and net pay. This project
models the logic behind those figures and proves properties of it:

- **`Entries`** (`time_entry.dfy`): a `TimeEntry` is an immutable record of
  an id and two instants. Its `Duration` is end minus start in seconds, and
  its `Hours` is that duration over 3600. Nothing forces the end to come
  after the start, so a duration may be zero or negative.
- **`WeekAggregator`** (`week_aggregator.dfy`): the pure part of
  `TimeManager`. The week filter keeps entries whose start lies in the
  half-open window `[startOfWeek, startOfWeek + 7 days)`. The seconds total
  is a left fold. The lemmas show that the filter keeps order and
  multiplicities, that the total ignores order, and that the week's hours
  are additive over any split of the entries.
- **`Manager`** (`time_manager.dfy`): the `TimeManager` class. It has four
  fields: the entry list, the hourly wage, the tax rate and the week-start
  day. `AddTimeEntry` appends and then re-sorts newest first.
  `DeleteTimeEntry` removes every entry with the given id. `ResetAllData`
  and `UpdateSettings` overwrite the settings. The weekly queries are
  functions of the fields and of the week's first instant.
- **`Widget`** (`widget.dfy`): the widget's `getTimeline` builds its own
  summary. It has its own weekday arithmetic and its own window, which
  covers entries lying wholly inside `[weekStart, weekStart + 6 days]`.
- **`WidgetVsApp`** (`widget_vs_app.dfy`): lemmas that compare the two
  computations.

Instants are whole seconds held in an `int`, and a day is 86400 seconds.
Hours, wage and tax are `real`. The first instant of the app's week comes
from the calendar, so it is a parameter of type `Option<Instant>`. `None`
stands for the case where the calendar cannot build that date; the source
then returns no entries. The widget's inputs are parameters too: the stored
settings, the decoded entry list, today's calendar weekday and the clock
readings.

The widget and the app disagree in two ways. The model states both and
does not reconcile them:

- The widget takes today's weekday from the calendar, where Sunday is 1. It
  compares that with the week-start setting, where Monday is 1. So the
  instant the widget filters from falls on the day before the configured
  day (`WidgetVsApp.WidgetWeekBeginsDayEarly`,
  `WidgetVsApp.WidgetWeekStartWeekday`).
- The two use different windows. With the same week start and entries that
  do not run backwards, the widget never reports more hours than the app
  (`WidgetVsApp.WidgetHoursAtMostApp`). Every positive-length shift that
  starts on the week's seventh day counts only for the app
  (`WidgetVsApp.SeventhDayShiftOnlyInApp`).

The widget's reducer (ShiftTrackWidget/ShiftTrackWidget.swift:35) is
written `{ $0 + $0.hours }`. That uses the accumulator twice, where the
evident intent is to add each entry's hours. `Widget.SumHours` models that
intended sum.

## Model

| member | source | states |
|---|---|---|
| Entries.NewEntry | ShiftTrack/Models/TimeEntry.swift:16-20 | stores id, start and end unchanged, and has no precondition relating start and end |
| Entries.Duration | ShiftTrack/Models/TimeEntry.swift:8-10 | the end is exactly the start plus the duration; the duration is positive iff the end is after the start, and zero iff they are equal |
| Entries.Hours | ShiftTrack/Models/TimeEntry.swift:12-14 | hours times 3600 is the duration; positive iff the end is after the start, negative iff it is before |
| WeekAggregator.InWeek | ShiftTrack/Models/TimeManager.swift:98-103 | keeps exactly the entries whose start lies in [startOfWeek, startOfWeek + 7 days) and never grows the list |
| WeekAggregator.WeekEntries | ShiftTrack/Models/TimeManager.swift:97-103 | the week's entries are exactly the in-window ones, and none when the week start cannot be resolved |
| WeekAggregator.TotalSeconds | ShiftTrack/Models/TimeManager.swift:31 | the left-fold sum of durations is non-negative when every duration is |
| WeekAggregator.HoursIn | ShiftTrack/Models/TimeManager.swift:29-33 | hours are non-negative when every duration is, and zero when the week start cannot be resolved |
| WeekAggregator.InWeekAppend | ShiftTrack/Models/TimeManager.swift:101-103 | filtering a concatenation concatenates the filtered parts, so relative order is preserved |
| WeekAggregator.InWeekIdempotent | ShiftTrack/Models/TimeManager.swift:101-103 | filtering the week's entries again changes nothing |
| WeekAggregator.InWeekCount | ShiftTrack/Models/TimeManager.swift:101-103 | an in-window entry keeps its multiplicity; any other entry occurs zero times |
| WeekAggregator.InWeekPermutation | ShiftTrack/Models/TimeManager.swift:101-103 | permuted entry lists have permuted week entries |
| WeekAggregator.TotalSecondsAppend | ShiftTrack/Models/TimeManager.swift:31 | the total over a concatenation is the sum of the totals |
| WeekAggregator.TotalSecondsSnoc | ShiftTrack/Models/TimeManager.swift:31 | appending one entry adds its duration to the total |
| WeekAggregator.TotalSecondsRemoveAt | ShiftTrack/Models/TimeManager.swift:31 | taking out the entry at any position lowers the total by that entry's duration |
| WeekAggregator.TotalSecondsPermutation | ShiftTrack/Models/TimeManager.swift:31 | the total does not depend on the order of the entries |
| WeekAggregator.HoursInSplit | ShiftTrack/Models/TimeManager.swift:29-33 | the week's hours are additive over any disjoint split of the entries |
| WeekAggregator.HoursInAfterAdd | ShiftTrack/Models/TimeManager.swift:29-33 | adding one entry anywhere raises the week's hours by its hours if it starts in the week, otherwise leaves them unchanged |
| Manager.InsertAtKeepsNewestFirst | ShiftTrack/Models/TimeManager.swift:74 | placing an entry after every entry that starts no earlier and before every one that starts earlier keeps a list newest first |
| Manager.InsertNewestFirst | ShiftTrack/Models/TimeManager.swift:73-74 | inserting into a newest-first list gives a newest-first list with exactly one more occurrence of the entry |
| Manager.SortNewestFirst | ShiftTrack/Models/TimeManager.swift:74 | the result is sorted by start time, non-increasing, and is a permutation of the input |
| Manager.WithoutId | ShiftTrack/Models/TimeManager.swift:79 | the result holds exactly the entries whose id differs from the given one |
| Manager.WithoutIdAppend | ShiftTrack/Models/TimeManager.swift:79 | removal from a concatenation concatenates the removals, so survivors keep their relative order |
| Manager.WithoutIdCount | ShiftTrack/Models/TimeManager.swift:79 | every entry with another id keeps its multiplicity; entries with the id occur zero times |
| Manager.WithoutAbsentId | ShiftTrack/Models/TimeManager.swift:78-81 | removing an id no entry carries is a no-op |
| Manager.WithoutIdNewestFirst | ShiftTrack/Models/TimeManager.swift:79 | removal keeps a newest-first list newest first |
| Manager.TimeManager.constructor | ShiftTrack/Models/TimeManager.swift:23-25 | the manager holds the loaded entries and settings |
| Manager.TimeManager.AddTimeEntry | ShiftTrack/Models/TimeManager.swift:71-76 | the new multiset is the old one plus the new entry, the list is newest first whatever the prior order, the settings are unchanged, and each week's hours grow by the entry's hours exactly when it starts in that week |
| Manager.TimeManager.DeleteTimeEntry | ShiftTrack/Models/TimeManager.swift:78-81 | no entry with the id remains, survivors keep their order, an absent id changes nothing, newest-first order is kept, and the settings are unchanged |
| Manager.TimeManager.ResetAllData | ShiftTrack/Models/TimeManager.swift:128-135 | wage 20.0, tax 0.12, week start 1, empty list |
| Manager.TimeManager.UpdateSettings | ShiftTrack/Models/TimeManager.swift:139-144 | sets exactly the three settings as given and leaves the entries untouched |
| Manager.TimeManager.CurrentWeekEntries | ShiftTrack/Models/TimeManager.swift:85-104 | exactly the held entries that start in the week; none when the week start cannot be resolved |
| Manager.TimeManager.HoursWorkedThisWeek | ShiftTrack/Models/TimeManager.swift:29-33 | non-negative when every held duration is; zero without a week start |
| Manager.TimeManager.HoursRemainingThisWeek | ShiftTrack/Models/TimeManager.swift:35-37 | never negative; zero iff the hours reach 40; otherwise the hours plus the remainder make 40; at most 40 when the hours are non-negative |
| Manager.TimeManager.WeeklyHoursProgress | ShiftTrack/Models/TimeManager.swift:39-41 | at most 1; exactly 1 iff the hours reach 40; below that it is the hours over 40; non-negative when the hours are |
| Manager.TimeManager.GrossEarningsThisWeek | ShiftTrack/Models/TimeManager.swift:43-45 | non-negative for non-negative hours and wage; zero when either is zero or there is no week start |
| Manager.AfterTax | ShiftTrack/Models/TimeManager.swift:47-49 | `gross * (1 - taxRate)` is the gross less the tax withheld; it lies in [0, gross] for a non-negative gross and a rate in [0, 1], and equals the gross at rate 0 |
| Manager.TimeManager.NetEarningsThisWeek | ShiftTrack/Models/TimeManager.swift:47-49 | gross less gross times the tax rate; between 0 and gross when gross is non-negative and the rate lies in [0, 1]; equal to gross at rate 0 |
| Widget.SwiftRemainder7 | ShiftTrackWidget/ShiftTrackWidget.swift:29 | Swift's truncating `% 7`: the remainder has the dividend's sign and magnitude below 7, and the dividend less the remainder is a multiple of 7 |
| Widget.DaysToSubtract | ShiftTrackWidget/ShiftTrackWidget.swift:29 | with both inputs in 1..7: lies in 0..6 and is 0 iff they are equal; always congruent with weekday minus week start mod 7; non-positive when the week start exceeds weekday + 7 |
| Widget.WeekStart | ShiftTrackWidget/ShiftTrackWidget.swift:27-30 | a whole number of days before now, at most six for in-range inputs, and that number of days back from today's weekday lands on the weekday `weekStartDay` (mod 7), which pins the start uniquely |
| Widget.Counted | ShiftTrackWidget/ShiftTrackWidget.swift:31-34 | keeps exactly the entries that start at or after the week start and end at or before six days later |
| Widget.CountedCount | ShiftTrackWidget/ShiftTrackWidget.swift:34 | every entry lying wholly inside the window keeps its multiplicity; any other entry occurs zero times |
| Widget.SumHours | ShiftTrackWidget/ShiftTrackWidget.swift:35 | the left-fold sum of entry hours is non-negative when no entry ends before it starts |
| Widget.WidgetHoursWorked | ShiftTrackWidget/ShiftTrackWidget.swift:21-36 | zero when no decodable entry data exists; non-negative when no stored entry runs backwards |
| Widget.GetTimeline | ShiftTrackWidget/ShiftTrackWidget.swift:15-53 | one entry dated now; reload exactly 30 minutes later; remaining hours are max(0, 40 - worked); net is worked times wage less tax; with no data the entry reads 0 hours, 40 left and 0 pay |
| WidgetVsApp.WidgetWeekBeginsDayEarly | ShiftTrackWidget/ShiftTrackWidget.swift:27-30 | the widget's week begins on the calendar weekday (Sunday = 1) numbered like the setting, which is the day before the configured day in the setting's Monday = 1 numbering |
| WidgetVsApp.SumHoursMatchesSeconds | ShiftTrackWidget/ShiftTrackWidget.swift:35 | the widget's sum of hours times 3600 equals the app's seconds total over the same entries |
| WidgetVsApp.WidgetEntryInAppWeek | ShiftTrackWidget/ShiftTrackWidget.swift:34 | an entry the widget counts, if it does not run backwards, also starts in the app's week |
| WidgetVsApp.CountedSecondsWithinApp | ShiftTrackWidget/ShiftTrackWidget.swift:33-35 | for the same week start, the widget's counted seconds never exceed the app's |
| WidgetVsApp.WidgetHoursAtMostApp | ShiftTrackWidget/ShiftTrackWidget.swift:33-35 | for the same week start, the widget's hours never exceed the app's hours |
| WidgetVsApp.WidgetWeekStartWeekday | ShiftTrackWidget/ShiftTrackWidget.swift:27-30 | the instant the widget filters from falls on the calendar weekday equal to the setting, the configured day's predecessor in Monday = 1 numbering |
| WidgetVsApp.SeventhDayShiftOnlyInApp | ShiftTrackWidget/ShiftTrackWidget.swift:31-34 | every positive-length shift starting in [start + 6 days, start + 7 days) is in the app's week and outside the widget's window |
| WidgetVsApp.WidgetNetIsAfterTax | ShiftTrackWidget/ShiftTrackWidget.swift:39 | the widget's net pay is the app's after-tax pay of hours times wage, so it lies in [0, gross] for a non-negative gross and a rate in [0, 1] |

## Left out

- Persistence is not modelled: `saveData` and `loadData` (ShiftTrack/Models/TimeManager.swift:108-126) and the widget's storage reads (ShiftTrackWidget/ShiftTrackWidget.swift:16-18, 22-23 and 28) are foreign-library I/O. The constructor takes the loaded values. The `?? 20.0`-style fallbacks are not modelled.
- Calendar week resolution is not modelled (ShiftTrack/Models/TimeManager.swift:86-97). It goes through the `yearForWeekOfYear`/`weekOfYear` components with `weekday = weekStartDay + 1`. The first instant of the week is an input instead.
- The app's week end is the week start plus 7 × 86400 seconds, and the widget's window end is its start plus 6 × 86400. Daylight-saving days of other lengths are not modelled.
- `currentWeekRange` (ShiftTrack/Models/TimeManager.swift:51-67) is not modelled. It only formats dates into a label.
- Instants are whole seconds, so fractional seconds of `Date` are not modelled. `Double` and `CGFloat` are exact `real`, so IEEE-754 rounding is not modelled.
- Ids are supplied naturals, so `UUID()` generation is not modelled.
- Combine's `@Published` change notification is not modelled.
- Manager.SortNewestFirst: Swift's library sort is modelled by an insertion sort. The insertion places each entry after the entries with equal start times, so ties keep their input order. The contract states only newest-first order and a permutation, not this stability.
- The `end > start` check exists only as a disabled Save button (ShiftTrack/Views/TimeEntryView.swift:44). `AddTimeEntry` does not assume it.
- Settings text parsing and percent scaling (ShiftTrack/Views/SettingsView.swift:60-69) are float text parsing and are not modelled.
- The widget's force-unwrapped calendar calls (ShiftTrackWidget/ShiftTrackWidget.swift:30, 31 and 50) trap when the calendar returns nil. The model treats them as total arithmetic on seconds, so those trap paths are not modelled.
- In the widget, `placeholder`, `getSnapshot`, the views, the progress bar and the widget configuration are presentation and are not modelled. `getTimeline` returns its timeline instead of passing it to a completion callback.
