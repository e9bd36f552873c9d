# Health reminder engine and record stores, in Dafny

This project models the core of *health-attention*, a desktop tray application that
reminds its user to drink water and to get up from the desk. The model covers three
pieces:

- **The reminder store** (`src/stores/reminder.ts`). It is split in two modules.
  - `ReminderPolicy` holds the pure part:
    - the work-time and do-not-disturb windows;
    - `canSendReminder`;
    - the countdown arithmetic;
    - `formatCountdown`;
    - the text of the tray tooltip.
  - `Reminder` holds the stateful part, as the class `ReminderStore`. Its fields are
    the store's refs: the three timer handles, the last reminder instants, the
    countdowns, the initialised flag and the pause state. Its methods are the
    store's operations and the three interval callbacks.
- **The sitting-record store** (`src/stores/sit.ts`). Module `Sit`, class `SitStore`.
- **The drinking-record store** (`src/stores/water.ts`). Module `Water`, class
  `WaterStore`.

Shared modules:

- `Types` holds the settings and record shapes and the factory defaults.
- `Lists` holds the JavaScript array operations the stores use: `findIndex`,
  `splice(i, 1)`, `filter` and a summing `reduce`.
- `Text` holds the JavaScript string behaviour the engine relies on:
  - `toString` of a non-negative integer;
  - `padStart`;
  - `split`;
  - `Number` of a field;
  - `trim`.

How the model stands in for the runtime:

- **The clock.** The wall clock is an argument, a `Clock` of epoch milliseconds
  plus the local weekday, hour and minute. Each synchronous call happens at one
  instant.
- **Delivered reminders.** A reminder that is sent records the instant at which
  the awaited notification returned. That instant is the separate argument
  `deliveredMs`.
- **Timers.** Host timers are modelled by:
  - the ids the store holds (`Option<Timer>`, with None for `null`);
  - the set `armed` of interval ids the host will call back;
  - the host's next id, which starts at 1.

  Because ids start at 1, the source's truthiness test on a timer id is the same as
  "not null". The invariant `Valid()` says that the host calls back exactly the
  timers the store holds, each under its own id. Every operation preserves it, so
  no interval is ever leaked.
- **Timer ticks.** A tick of an interval is a method call:
  - `WaterTimerFired`;
  - `SitTimerFired`;
  - `TooltipTimerFired`.
- **The tooltip.** The tooltip is built the way the source builds it: accumulated
  line by line, then trimmed (`TooltipText`). The lemma `TooltipRendersContent`
  proves that this text is exactly the lines of the tooltip's content joined by
  line breaks. The content is `TrayContent`: the header, the paused marker while
  paused, and one line per enabled kind whose countdown is running. The store's
  methods state what they publish as the rendering of that content.
- **Time-of-day strings.** An "HH:mm" bound is parsed as
  `split(':').map(Number)` does it.
  - A field that is empty counts as 0.
  - A field of decimal digits counts as its value.
  - Any other field is NaN, and so is a missing second field.
  - Every comparison with NaN is false, so a window with such a bound contains no
    minute.
- **Record stores.** The record stores take the new record's id, date and time as
  arguments. `getRecentStats` takes a function that gives the date string of the
  day `k` days before today.

The code's behaviour followed where a reader might expect otherwise:

- `restartReminders` clears only the pause flag. The pause instant and the
  snapshot are left as they were.
- `pauseReminders` freezes the countdowns last stored by the one-second tick. It
  does not recompute them.
- There is no eye-rest reminder kind.
- Firing the sitting reminder does not log a sitting record.
- `todayCompletionRate` tests `target === 0`, while `getDailyStats` tests
  `targetCups > 0`. The two agree for every target that is not negative
  (`Water.TodayIsDailyStats`). They differ for a negative target
  (`Water.RatesDifferOnNegativeTarget`).

## Model

| member | source | states |
|---|---|---|
| `ReminderPolicy.IsInWorkTime` | src/stores/reminder.ts:31-51 | definition of `isInWorkTime`; its properties are in `WorkTimeCases`, `WorkTimeBoundaries` and `MalformedBoundsNeverMatch` |
| `ReminderPolicy.IsInDndTime` | src/stores/reminder.ts:54-73 | definition of `isInDndTime`; its properties are in `DndTimeCases`, `DndWrapIsComplement`, `DndWindowIsCircular`, `DndOvernightExample` and `MalformedBoundsNeverMatch` |
| `ReminderPolicy.CanSendReminder` | src/stores/reminder.ts:76-78 | definition of `canSendReminder`; its properties are in `CanSendReminderCases` |
| `ReminderPolicy.WorkTimeCases` | src/stores/reminder.ts:31-51 | work time always holds when the policy is off, never on a day outside `workDays`, and otherwise holds exactly for start <= minute of day <= end, inclusive at both ends |
| `ReminderPolicy.WorkTimeBoundaries` | src/stores/reminder.ts:45-50 | with "09:00".."18:00", 09:00 and 18:00 are inside the window and 08:59 and 18:01 are outside it |
| `ReminderPolicy.DndTimeCases` | src/stores/reminder.ts:54-73 | do-not-disturb never holds when disabled; a window with start > end is the union minute >= start or minute <= end; otherwise it is start <= minute <= end |
| `ReminderPolicy.DndWrapIsComplement` | src/stores/reminder.ts:69-71 | a window that wraps past midnight holds every minute except those strictly between its end and its start |
| `ReminderPolicy.DndWindowIsCircular` | src/stores/reminder.ts:68-72 | both shapes of the window are one circular interval: a minute is inside iff its distance forward from the start (mod 1440) is at most the end's |
| `ReminderPolicy.DndOvernightExample` | src/stores/reminder.ts:63-72 | with "22:00".."08:00", 23:00 and 02:00 are quiet and noon is not |
| `ReminderPolicy.MalformedBoundsNeverMatch` | src/stores/reminder.ts:45-50 | a bound that parses to NaN empties its window: enabled work time never holds and do-not-disturb never holds |
| `ReminderPolicy.CanSendReminderCases` | src/stores/reminder.ts:76-78 | a reminder may go out iff in work time, not in do-not-disturb and not paused; a pause always blocks; with both policies off, only the pause decides |
| `ReminderPolicy.Remaining` | src/stores/reminder.ts:128-134 | a kind's countdown is never negative |
| `ReminderPolicy.CountdownBounds` | src/stores/reminder.ts:128-131 | for an enabled kind with now >= last, 0 <= countdown <= interval*60, and the countdown is 0 iff a whole interval has elapsed |
| `ReminderPolicy.DisabledCountdownIsZero` | src/stores/reminder.ts:132-134 | a disabled kind's countdown is 0 |
| `ReminderPolicy.FreshCountdownIsWholeInterval` | src/stores/reminder.ts:129-131 | right after a kind's last reminder is reset to now, its countdown is the whole interval |
| `ReminderPolicy.ResumedCountdownContinues` | src/stores/reminder.ts:324-329 | after a resume with r > 0 seconds frozen, the countdown d ms later is max(0, r - floor(d/1000)), and it is exactly r at the resume |
| `ReminderPolicy.ResumedCountdownAlwaysContinues` | src/stores/reminder.ts:324-336 | the same continuation at every instant after the resume |
| `ReminderPolicy.PauseResumeRoundTrip` | src/stores/reminder.ts:310-329 | a countdown frozen by a pause is shown again unchanged at the resume, however long the pause lasted |
| `ReminderPolicy.FormatCountdown` | src/stores/reminder.ts:81-86 | definition of `formatCountdown`; its properties are in `FormatCountdownRoundTrip` and `FormatCountdownExamples` |
| `ReminderPolicy.FormatCountdownRoundTrip` | src/stores/reminder.ts:81-86 | every count <= 0 renders as "00:00"; a positive count renders as a minutes field, ':' and a seconds field, the minutes field `floor(s/60)` as `toString().padStart(2, '0')` (digits, at least two, value s/60), the seconds field `s % 60` likewise (exactly two digits, value s%60), and the text read back as minutes:seconds gives the count again |
| `ReminderPolicy.FormatCountdownExamples` | src/stores/reminder.ts:81-86 | 65 renders as "01:05", 2700 as "45:00", and 0 and -5 as "00:00" |
| `ReminderPolicy.TooltipRaw` | src/stores/reminder.ts:93-105 | definition of the string `updateTrayTooltip` accumulates line by line; its properties are in `TooltipRendersContent` |
| `ReminderPolicy.TooltipText` | src/stores/reminder.ts:89-108 | definition of the trimmed string `updateTrayTooltip` sends; its properties are in `TooltipRendersContent` |
| `ReminderPolicy.TrayContent` | src/stores/reminder.ts:93-105 | definition of what the tooltip reports, line by line; its properties are in `TrayContentShows` |
| `ReminderPolicy.TooltipRendersContent` | src/stores/reminder.ts:89-108 | the accumulated-then-trimmed tooltip equals the content's lines joined by line breaks: only the break after the last line is trimmed away |
| `ReminderPolicy.TrayContentShows` | src/stores/reminder.ts:93-105 | the content starts with the header, has the paused marker iff paused, and reports a kind's countdown iff the kind is enabled and its countdown is positive, and no other countdown for it |
| `Text.NatToString` | src/stores/reminder.ts:85 | `toString` of a non-negative integer is a non-empty digit string whose value is the number, with no leading zero except for 0 itself, and one digit long exactly below 10 |
| `Text.PadStart` | src/stores/reminder.ts:85 | `padStart` keeps the string as its suffix and fills up to the width with the fill character |
| `Text.Pad2IsPadStart` | src/stores/reminder.ts:85 | two-digit padding is `padStart(2, '0')` of `toString` |
| `Text.Pad2Value` | src/stores/reminder.ts:85 | a padded number is a digit string of its value, at least two long and exactly two below 100 |
| `Text.Split` | src/stores/reminder.ts:45 | `split` returns at least one field, and exactly one iff the separator does not occur |
| `Text.NumberOf` | src/stores/reminder.ts:45 | `Number` of a field is a value iff the field is all digits, and then a non-negative one |
| `Text.ParseTimeOfDay` | src/stores/reminder.ts:45-47 | definition of `split(':').map(Number)` followed by `h * 60 + m`; its properties are in `ParseTwoDigitFields`, `ParseTimeOfDayRoundTrip` and `MalformedBoundsNeverMatch` |
| `Text.ParseTwoDigitFields` | src/stores/reminder.ts:45-48 | a "DD:DD" string parses to hours*60 + minutes, read from its digits |
| `Text.ParseTimeOfDayRoundTrip` | src/stores/reminder.ts:45-48 | padded hours, a colon and padded minutes parse back to h*60 + m |
| `Text.Trim` | src/stores/reminder.ts:108 | definition of `trim` as `TrimStart` after `TrimEnd`; its properties are in their contracts |
| `Text.TrimEnd` | src/stores/reminder.ts:108 | `trim` at the end: a prefix of the input with no trailing whitespace, and everything dropped was whitespace |
| `Text.TrimStart` | src/stores/reminder.ts:108 | `trim` at the start: a suffix of the input with no leading whitespace, and everything dropped was whitespace |
| `Reminder.ReminderStore.constructor` | src/stores/reminder.ts:8-28 | a new store holds no timer, is neither initialised nor paused, and counts both kinds from its creation instant |
| `Reminder.ReminderStore.UpdateTrayTooltip` | src/stores/reminder.ts:89-112 | the text sent to the tray is the rendering of the content for the stored pause flag and countdowns |
| `Reminder.ReminderStore.SetInterval` | src/stores/reminder.ts:153 | the host arms a fresh interval id with the given period |
| `Reminder.ReminderStore.ClearInterval` | src/stores/reminder.ts:149 | the host stops calling back the cleared id |
| `Reminder.ReminderStore.CalculateCountdowns` | src/stores/reminder.ts:115-144 | while paused the countdowns are the snapshot whatever the clock says; otherwise each is its kind's remaining time, 0 when disabled |
| `Reminder.ReminderStore.StartTooltipTimer` | src/stores/reminder.ts:147-161 | the old aggregator interval is cleared and a fresh 1000 ms one armed; the countdowns are recomputed at once and the tooltip published |
| `Reminder.ReminderStore.TooltipTimerFired` | src/stores/reminder.ts:153-156 | each tick recomputes the countdowns and publishes the tooltip |
| `Reminder.ReminderStore.SendWaterReminder` | src/stores/reminder.ts:225-233 | the reminder goes out iff `canSendReminder` holds; the last water reminder becomes the delivery instant then, and is untouched otherwise |
| `Reminder.ReminderStore.SendSitReminder` | src/stores/reminder.ts:236-244 | the same for the sitting reminder |
| `Reminder.ReminderStore.WaterTimerFired` | src/stores/reminder.ts:258-262 | a water tick sends iff water reminders are enabled and sending is allowed; never while paused, and a suppressed tick keeps the schedule |
| `Reminder.ReminderStore.SitTimerFired` | src/stores/reminder.ts:279-283 | the same for the sitting tick |
| `Reminder.ReminderStore.StartWaterTimer` | src/stores/reminder.ts:247-265 | the previous water interval is cleared, the last water reminder is reset to now, and one fresh interval of interval*60*1000 ms is armed |
| `Reminder.ReminderStore.StartSitTimer` | src/stores/reminder.ts:268-286 | the same for the sitting timer |
| `Reminder.ReminderStore.ClearAllTimers` | src/stores/reminder.ts:289-302 | all three handles become null and nothing stays armed; on a store with no timer it changes nothing |
| `Reminder.ReminderStore.PauseReminders` | src/stores/reminder.ts:305-315 | a no-op while paused; otherwise it pauses, records the instant, freezes the stored countdowns and publishes the tooltip |
| `Reminder.ReminderStore.ShiftPausedSchedules` | src/stores/reminder.ts:321-336 | each kind with a positive frozen countdown gets the last-reminder instant from which that countdown continues; a kind frozen at 0 is untouched |
| `Reminder.ReminderStore.ResumeReminders` | src/stores/reminder.ts:318-345 | a no-op while running; otherwise every enabled kind with a positive frozen countdown continues from that value at every later instant (a kind frozen at 0 keeps its schedule), the pause instant and snapshot are cleared and the tooltip published |
| `Reminder.ReminderStore.TogglePause` | src/stores/reminder.ts:348-354 | flips the pause flag and publishes the tooltip; a pause records the instant, freezes the stored countdowns and keeps both schedules; a resume shifts the schedules so every enabled kind with a positive frozen countdown continues from it, and clears the pause instant and snapshot |
| `Reminder.ReminderStore.RestartReminders` | src/stores/reminder.ts:357-373 | afterwards not paused, with the pause instant and snapshot kept; a water or sitting timer is armed exactly when that kind is enabled, with its period; enabled kinds restart at now; the aggregator runs |
| `Reminder.ReminderStore.InitReminders` | src/stores/reminder.ts:376-386 | the first call does all `restartReminders` does (not paused with the pause instant and snapshot kept, a timer of the configured period per enabled kind, enabled kinds restarted at now, countdowns recomputed, the aggregator running, the tooltip published) and marks the store initialised; any later call changes nothing and publishes nothing |
| `Lists.FindIndex` | src/stores/sit.ts:129 | the result is the first index whose element matches, or None exactly when none matches |
| `Lists.RemoveAt` | src/stores/sit.ts:131 | `splice(i, 1)` removes that one element and keeps the others in order |
| `Lists.Filter` | src/stores/sit.ts:42 | `filter` keeps exactly the matching elements |
| `Lists.Sum` | src/stores/sit.ts:47 | definition of the summing `reduce((sum, r) => sum + f(r), 0)`; its properties are in `Sit.StatsAdditive` and `Water.StatsAdditive` |
| `Sit.GetDailyStats` | src/stores/sit.ts:137-149 | definition of `getDailyStats`; its properties are in `DailyStatsMeaning`, `AppendStats`, `MarkStats` and `RemoveStats` |
| `Sit.TodayRecords` | src/stores/sit.ts:40-43 | definition of `todayRecords`; its properties are in `TodayIsDailyStats` |
| `Sit.TodaySitTime` | src/stores/sit.ts:46-48 | definition of `todaySitTime`; its properties are in `TodayIsDailyStats` |
| `Sit.TodayRestCount` | src/stores/sit.ts:51-53 | definition of `todayRestCount`; its properties are in `TodayIsDailyStats` |
| `Sit.TodayAvgSitDuration` | src/stores/sit.ts:56-59 | definition of `todayAvgSitDuration`; its properties are in `TodayIsDailyStats` and `RoundedAverage` |
| `Sit.RoundedAverage` | src/stores/sit.ts:141 | `Math.round(total / count)` is the integer nearest to the mean, halves rounded up |
| `Sit.DailyStatsMeaning` | src/stores/sit.ts:137-149 | the day's total and rest count are over that date's records only; the rest count is at most the day's record count; the average is 0 on an empty day and otherwise the rounded mean |
| `Sit.TodayIsDailyStats` | src/stores/sit.ts:40-59 | the today aggregates are `getDailyStats` of today's date |
| `Sit.StatsAdditive` | src/stores/sit.ts:138-140 | record counts, totals and rest counts add up over two halves of the list |
| `Sit.AppendStats` | src/stores/sit.ts:99-114 | logging a record adds its duration, and a rest if it was rested, to its own date and changes no other date |
| `Sit.MarkStats` | src/stores/sit.ts:119-125 | marking a record rested keeps every total and adds one rest to its date exactly when it was not yet rested |
| `Sit.RemoveStats` | src/stores/sit.ts:128-134 | deleting a record takes exactly it out of its date's statistics |
| `Sit.SitStore.constructor` | src/stores/sit.ts:27 | the store starts with no record |
| `Sit.SitStore.AddAutoRecord` | src/stores/sit.ts:89-102 | appends one record of the configured interval, not rested and marked automatic, leaving the earlier ones unchanged |
| `Sit.SitStore.AddManualRecord` | src/stores/sit.ts:105-116 | appends one record with the given duration and rest flag, marked manual, leaving the earlier ones unchanged |
| `Sit.SitStore.MarkRestCompleted` | src/stores/sit.ts:119-125 | the first record with the id is marked rested and nothing else changes; an unknown id changes nothing |
| `Sit.SitStore.DeleteRecord` | src/stores/sit.ts:128-134 | the first record with the id is removed and the rest keep their order; an unknown id changes nothing |
| `Sit.SitStore.GetRecentStats` | src/stores/sit.ts:152-164 | exactly `days` entries (none for days <= 0), oldest first, entry k the statistics of the day `days-1-k` days ago, the last one today's |
| `Water.GetDailyStats` | src/stores/water.ts:114-130 | definition of `getDailyStats`; its properties are in `DailyStatsMeaning`, `AppendStats`, `RemoveStats` and `VolumeIsCupsTimesSize` |
| `Water.TodayRecords` | src/stores/water.ts:40-43 | definition of `todayRecords`; its properties are in `TodayIsDailyStats` |
| `Water.TodayCups` | src/stores/water.ts:46-48 | definition of `todayCups`; its properties are in `TodayIsDailyStats` |
| `Water.TodayVolume` | src/stores/water.ts:51-53 | definition of `todayVolume`; its properties are in `TodayIsDailyStats` |
| `Water.TodayCompletionRate` | src/stores/water.ts:56-61 | definition of `todayCompletionRate`; its properties are in `TodayIsDailyStats` and `RatesDifferOnNegativeTarget` |
| `Water.CappedRate` | src/stores/water.ts:60 | the capped percentage never exceeds 100 and equals 100 exactly when the uncapped one reaches it |
| `Water.CappedRateSigns` | src/stores/water.ts:128 | for a positive target the rate is 100 iff the cups reach the target, and not negative for a non-negative cup count |
| `Water.DailyStatsMeaning` | src/stores/water.ts:114-129 | totals are over that date's records; the targets are the configured ones; the rate is at most 100, 0 unless the target is positive, 100 iff the target is met |
| `Water.TodayIsDailyStats` | src/stores/water.ts:39-61 | `todayCups` and `todayVolume` are today's totals, and `todayCompletionRate` is today's rate whenever the target is not negative |
| `Water.RatesDifferOnNegativeTarget` | src/stores/water.ts:56-61 | for a negative target with cups logged today, `getDailyStats` reports 0 while `todayCompletionRate` does not |
| `Water.StatsAdditive` | src/stores/water.ts:116-118 | cups and volume totals add up over two halves of the list |
| `Water.AppendStats` | src/stores/water.ts:91-101 | logging a drink adds its cups and volume to its own date and to no other |
| `Water.RemoveStats` | src/stores/water.ts:105-111 | deleting a drink takes exactly its cups and volume out of its date's totals |
| `Water.VolumeIsCupsTimesSize` | src/stores/water.ts:98-118 | while every drink was logged at the current cup size, a day's volume is its cups times the size |
| `Water.WaterStore.constructor` | src/stores/water.ts:27 | the store starts with no record |
| `Water.WaterStore.AddRecord` | src/stores/water.ts:91-102 | appends one record of the given cups with volume cups * cupVolume, leaving the earlier ones unchanged and keeping the records sized by the cup size |
| `Water.WaterStore.DeleteRecord` | src/stores/water.ts:105-111 | the first record with the id is removed and the rest keep their order; an unknown id changes nothing |
| `Water.WaterStore.GetRecentStats` | src/stores/water.ts:133-145 | exactly `days` entries (none for days <= 0), oldest first, entry k the statistics of the day `days-1-k` days ago, the last one today's |

## Left out

- Notification delivery, the permission request and the reminder sound (src/stores/reminder.ts:164-222) are I/O. Sending is modelled as an abstract step that always returns, since the source swallows its errors.
- The `update_tray_tooltip` call to the host (src/stores/reminder.ts:107-111) is I/O. The text it would send is modelled; the send is not.
- Real interval timing and async interleaving are not modelled. Each tick is a method call, and a call runs at one instant. One consequence: `initReminders` sets its flag only after `await loadSettings()`, so two overlapping calls could both restart. The model runs calls one after another and does not capture this.
- Loading the settings in `initReminders` is left out, and so is persistence through the key-value store (`loadRecords`, `saveRecords`, `isLoading`). They are I/O.
- `generateId`, `getTodayStr`, `getCurrentTimeStr` and the calendar arithmetic of `getRecentStats` read the clock and a random source. Their results are arguments.
- `getWeeklyStats` and `getMonthlyStats` are left out. They are `getRecentStats(7)` and `getRecentStats(30)`.
- JavaScript numbers are modelled as integers. Fractional minutes, cups or durations are not modelled. The completion rate is a `real`, so floating-point rounding is not modelled.
- `Text.NumberOf` models `Number(field)` for the empty string and for strings of ASCII digits only; every other field reads as NaN. JavaScript also accepts surrounding whitespace, signs, decimals, exponents and hexadecimal; those are not modelled.
- Default arguments are not modelled: `addRecord(cups = 1)` (src/stores/water.ts:91) and `getRecentStats(days = 7)` (src/stores/sit.ts:152, src/stores/water.ts:133) take the count as an explicit argument (`Water.WaterStore.AddRecord`, `Sit.SitStore.GetRecentStats`, `Water.WaterStore.GetRecentStats`).
- `Math.round` is modelled for integer totals and counts only.
- `console.log` and `console.error` output is not modelled.
- The settings store (src/stores/settings.ts) is not part of this model. Neither is the host process (src-tauri/src/lib.rs), the router, or the build configuration.
- `Lists.FindIndex`, `Lists.Filter` and `Lists.Sum` take total predicates and functions. JavaScript callbacks that throw are not modelled.
