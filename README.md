# Productivity dashboard: derived data, Pomodoro timer and calendar grouping

This project models the logic inside the two dashboard pages of react-starter-kit.
The pages are `app/frontend/pages/dashboard/index.tsx` and
`app/frontend/pages/dashboard/productivity-enhanced.tsx`. They render the constant
data of `app/frontend/data/dashboard-mock-data.ts`.

- `mock_data.dfy` (module `MockData`) defines the `Task`, `DailyGoal` and
  `ProductivityMetric` records. It also holds the fixture values, copied field by
  field: ten tasks, four goals and ten metrics.
- `seqs.dfy` (module `Seqs`) defines `Filter` and `Count`. They stand for
  JavaScript's order-preserving `Array.prototype.filter` and `.length`. The module
  also defines an order-preserving subsequence predicate.
- `text.dfy` (module `Text`) models the JavaScript string operations the pages use:
  integer `toString`, `padStart`, `split` on one character, and `join('')`. It also has
  a decimal reader that is their inverse, used to state round trips.
- `dashboard.dfy` (module `Dashboard`) covers `index.tsx`:
  - the task filter tabs (`filteredTasks`);
  - the counts shown on the stat cards and tab labels;
  - `formatTime`;
  - `getPriorityColor`.
- `pomodoro.dfy` (module `Pomodoro`) models the Pomodoro timer of `index.tsx`.
  - Its three React state variables are the fields of the class `PomodoroTimer`.
  - The Start/Pause, Reset and slider handlers and one run of the timer effect are
    methods that update those fields.
  - Each method is proved equal to a pure transition on a `TimerState` value.
  - The properties are proved about those transitions and about `Run`, which
    performs `n` effect steps in a row.
- `productivity.dfy` (module `Productivity`) covers `productivity-enhanced.tsx`:
  - `tasksForDate`;
  - the `tasksWithDates` reduce. It is a method whose loop updates its accumulator
    the way the source mutates its record.
  - the calendar's `hasTasks` days;
  - the avatar initials;
  - the Cmd/Ctrl+K command palette toggle, as the class `CommandPalette`.
- `mock_data_facts.dfy` (module `MockDataFacts`) states what the fixture data
  makes the pages show. Examples are the counts 10/2/1/4/4 and one calendar bucket
  per due day.

The code behaves as follows, which a reader may not expect:
- A filter value other than `all`, `todo`, `in-progress` or `done` shows no task.
  It does not fall back to all tasks (`Dashboard.UnknownFilterIsEmpty`).
- Start/Pause flips the running flag even at zero seconds (`Pomodoro.CompletionRepeats`).
- The slider resets the seconds even while the timer runs (`Pomodoro.SliderWhileRunning`).
- The completion branch of the timer effect is not guarded. It runs at every step
  taken at zero seconds, so completion is not signalled exactly once
  (`Pomodoro.CompletionRepeats`). When a session ends, the branch turns the running
  flag off. The flag is a dependency of the effect, so the effect runs once more at
  zero seconds and shows the completion toast a second time
  (`Pomodoro.SessionEndsWithTwoCompletions`).

## Model

| member | source | states |
|---|---|---|
| Dashboard.FilterAllIsIdentity | app/frontend/pages/dashboard/index.tsx:100-103 | The "all" tab shows the task list unchanged. |
| Dashboard.FilteredTasksExact | app/frontend/pages/dashboard/index.tsx:100-103 | Any other tab shows an order-preserving subsequence of the tasks. Every task shown has that status, and every occurrence of a matching task is kept. |
| Dashboard.UnknownFilterIsEmpty | app/frontend/pages/dashboard/index.tsx:100-103 | A tab value that is not a status name and not "all" shows no task. |
| Dashboard.StatusCountsSumToTotal | app/frontend/pages/dashboard/index.tsx:106-109 | The to-do, in-progress and done counts add up to the total. |
| Dashboard.UrgentCountMeaning | app/frontend/pages/dashboard/index.tsx:108 | The urgent count is at most the total. It is zero exactly when no task is urgent. |
| Dashboard.PriorityColorsDistinct | app/frontend/pages/dashboard/index.tsx:131-144 | The four priorities get four different badge colours. Any other string gets the grey default, which differs from all four. |
| Dashboard.FormatTimeShape | app/frontend/pages/dashboard/index.tsx:125-129 | For non-negative seconds the clock text has a colon third from the end. Before it are at least two digits worth `seconds / 60`; after it are exactly two digits worth `seconds % 60`. Below 100 minutes the text is five characters long. |
| Dashboard.FormatTimeRoundTrip | app/frontend/pages/dashboard/index.tsx:125-129 | Reading the clock text back as minutes and seconds gives the number of seconds it was made from. |
| Dashboard.FormatTimeNegative | app/frontend/pages/dashboard/index.tsx:125-129 | A negative input keeps JavaScript's truncating `%` and minus signs: -1 gives "-1:-1". |
| Pomodoro.EventsPreserveValid | app/frontend/pages/dashboard/index.tsx:427-458 | Start/Pause, Reset, the slider and the timer effect keep two facts true: the session length is a slider value, and the seconds lie between 0 and the full session. |
| Pomodoro.TickTakesOneSecond | app/frontend/pages/dashboard/index.tsx:112-123 | The seconds change exactly when the timer runs with seconds left, and then by exactly one. They never go negative, and the session length is untouched. |
| Pomodoro.CompletionAtZero | app/frontend/pages/dashboard/index.tsx:118-121 | The effect signals completion exactly when zero seconds are left. It then stops the timer at zero. |
| Pomodoro.CompletionRepeats | app/frontend/pages/dashboard/index.tsx:112-123 | At zero seconds every step signals completion again. Start at zero sets the timer running, and the next step signals completion once more. |
| Pomodoro.RunWhileRunning | app/frontend/pages/dashboard/index.tsx:114-117 | While seconds are left, `n` steps of a running timer take off exactly `n` seconds and signal no completion. |
| Pomodoro.RunToCompletion | app/frontend/pages/dashboard/index.tsx:112-123 | A running timer with `c` seconds left is stopped at zero after `c + 1` steps, having signalled completion once so far. |
| Pomodoro.RunSplit | app/frontend/pages/dashboard/index.tsx:112-123 | Running `m + n` steps is running `m` steps and then `n` more. Completions add up. |
| Pomodoro.PauseResumeKeepsSeconds | app/frontend/pages/dashboard/index.tsx:427-432 | Start/Pause changes only the running flag. Pausing and resuming loses no seconds, and pressing twice restores the state. |
| Pomodoro.SessionEndsWithTwoCompletions | app/frontend/pages/dashboard/index.tsx:112-123 | A running timer with `c` seconds left is stopped at zero after `c + 2` effect runs with two completion toasts. Run `c + 1` stops it and toasts. Turning the flag off re-runs the effect (the flag is in the dependency list), and that run toasts again. |
| Pomodoro.ResetGivesFullSession | app/frontend/pages/dashboard/index.tsx:439-442 | After Reset and Start, a whole session of `pomodoroTime * 60` seconds runs down to zero. After `pomodoroTime * 60 + 1` effect runs the timer is stopped with one toast. The run forced by the flag flip makes it two. |
| Pomodoro.SliderWhileRunning | app/frontend/pages/dashboard/index.tsx:451-454 | Moving the slider while the timer runs restarts from the new length (at least 300 seconds) and leaves the timer running. |
| Pomodoro.PauseResumeScenario | app/frontend/pages/dashboard/index.tsx:112-123 | A 5-minute session started, run for 10 seconds, paused and resumed, then run for 5 more seconds has 285 seconds left. |
| Pomodoro.DefaultSessionScenario | app/frontend/pages/dashboard/index.tsx:93-95 | The initial 25-minute session, once started, is stopped at zero after 1501 effect runs with one completion toast. The run forced by the flag flip brings it to two after 1502 runs. |
| Pomodoro.PomodoroTimer.constructor | app/frontend/pages/dashboard/index.tsx:93-95 | The timer starts at 25 minutes, stopped, with 1500 seconds left. |
| Pomodoro.PomodoroTimer.StartPause | app/frontend/pages/dashboard/index.tsx:427-432 | Flips the running flag and nothing else. The "started" toast shows exactly when the timer was stopped. Validity is kept. |
| Pomodoro.PomodoroTimer.Reset | app/frontend/pages/dashboard/index.tsx:439-442 | Sets the seconds to the full session and stops the timer. Validity is kept. |
| Pomodoro.PomodoroTimer.SetLength | app/frontend/pages/dashboard/index.tsx:451-454 | Sets the length and a full session's seconds, whether or not the timer runs. Validity is kept. |
| Pomodoro.PomodoroTimer.Step | app/frontend/pages/dashboard/index.tsx:112-123 | Performs one effect step on the fields. The completion toast shows exactly as `EffectStep` says. Validity is kept. |
| Productivity.FormatDayRoundTrip | app/frontend/pages/dashboard/productivity-enhanced.tsx:236 | A day written as `yyyy-MM-dd` is ten characters long and reads back to the same day. |
| Productivity.TasksWithDates | app/frontend/pages/dashboard/productivity-enhanced.tsx:235-240 | The reduce leaves a record whose keys are the due days in first-appearance order. Each day's bucket holds the tasks due that day. |
| Productivity.DueDaysMembership | app/frontend/pages/dashboard/productivity-enhanced.tsx:235-240 | A day is a key of the grouping exactly when some task is due that day. |
| Productivity.DueDaysNoDuplicates | app/frontend/pages/dashboard/productivity-enhanced.tsx:237 | No day is keyed twice. |
| Productivity.TaskInOwnBucketOnly | app/frontend/pages/dashboard/productivity-enhanced.tsx:236-238 | Every task is in the bucket of its own due day and in no other bucket. |
| Productivity.BucketKeysAndNonEmpty | app/frontend/pages/dashboard/productivity-enhanced.tsx:237-238 | A day has a bucket exactly when some task is due that day. No bucket is empty. |
| Productivity.BucketKeepsListOrder | app/frontend/pages/dashboard/productivity-enhanced.tsx:238 | A bucket keeps the list order and holds only tasks due that day. It holds every occurrence of each such task. |
| Productivity.BucketSizesSum | app/frontend/pages/dashboard/productivity-enhanced.tsx:235-240 | The bucket sizes add up to the number of tasks, so the grouping loses and duplicates nothing. |
| Productivity.DistinctDueDatesSingletonBuckets | app/frontend/pages/dashboard/productivity-enhanced.tsx:235-240 | When no two tasks share a due day, every bucket holds exactly one task. |
| Productivity.TasksForDateIsBucket | app/frontend/pages/dashboard/productivity-enhanced.tsx:229-232 | The tasks listed for a selected day are that day's bucket. The list is empty when the day has no bucket or no day is selected. |
| Productivity.HasTasksAreBucketKeys | app/frontend/pages/dashboard/productivity-enhanced.tsx:631 | The highlighted calendar days are exactly the grouping's keys, each listed once. |
| Productivity.InitialsPerWord | app/frontend/pages/dashboard/productivity-enhanced.tsx:485 | The initials have one character per non-empty space-separated word: its first character, in order. Empty pieces add nothing. |
| Productivity.InitialsAreWordStarts | app/frontend/pages/dashboard/productivity-enhanced.tsx:516 | The initials are exactly the non-space characters that start the name or follow a space. |
| Productivity.ShortcutToggles | app/frontend/pages/dashboard/productivity-enhanced.tsx:195-209 | A keydown flips the palette exactly for "k" with Cmd or Ctrl. Pressing it twice restores the state. |
| Productivity.CommandPalette.constructor | app/frontend/pages/dashboard/productivity-enhanced.tsx:180 | The palette starts closed. |
| Productivity.CommandPalette.OnKeyDown | app/frontend/pages/dashboard/productivity-enhanced.tsx:196-205 | The listener prevents the default and flips the flag exactly for Cmd/Ctrl+K. The "opened" toast shows exactly when it opens the palette. |
| Productivity.CommandPalette.SetOpen | app/frontend/pages/dashboard/productivity-enhanced.tsx:265 | The dialog, the items and the quick-access button set the flag to the value given. |
| MockDataFacts.FixtureCounts | app/frontend/data/dashboard-mock-data.ts:36-211 | The fixture's stats are 10 tasks, 2 done, 1 urgent, 4 in progress and 4 to do. |
| MockDataFacts.FixtureIdsDistinct | app/frontend/data/dashboard-mock-data.ts:36-211 | Task ids are pairwise distinct, so they are usable as React keys. |
| MockDataFacts.FixtureProgressConsistent | app/frontend/data/dashboard-mock-data.ts:36-211 | Progress lies between 0 and 100. Done tasks are at 100. To-do tasks have no progress and no time spent. |
| MockDataFacts.FixtureBucketsAreSingletons | app/frontend/data/dashboard-mock-data.ts:36-211 | No two tasks share a due day. Every calendar bucket holds one task, and there are ten highlighted days. |
| MockDataFacts.FixtureDueDatesAreDayKeys | app/frontend/data/dashboard-mock-data.ts:36-211 | Every due date is the well-formed `yyyy-MM-dd` text of a day, and it reads back to that day through the model's day reader. |
| MockDataFacts.FixtureGoalsWellFormed | app/frontend/data/dashboard-mock-data.ts:213-250 | Every goal has a positive target and a current value between 0 and the target. |
| MockDataFacts.FixtureMetricsOnePerDay | app/frontend/data/dashboard-mock-data.ts:252-263 | The metrics cover 2025-01-01 to 2025-01-10, one day each, in order. |

## Left out

- Rendering, styling, tooltips, carousels, sheets, dialogs and every other JSX element are not modelled. Only the data the pages compute is. `app/frontend/components/ui/drawer.tsx` and `app/controllers/dashboard_controller.rb` are not part of this model.
- Toasts are not modelled as side effects. A method returns a boolean that tells whether a toast would be shown.
- React scheduling is not modelled: `setInterval`, the effect's cleanup, and the re-rendering that re-runs the effect. One run of the effect together with the one-second tick it schedules is one `EffectStep`. How many steps happen in real time is the caller's choice.
- Pomodoro.PomodoroTimer.SetLength: requires a slider value (5 to 60 in steps of 5). The slider component guarantees this, and the handler itself does not check it.
- `new Date(...)`, date-fns `format` and `isSameDay`, and time zones are not modelled. A due date is its `yyyy-MM-dd` text, and the model assumes `format(new Date(d), "yyyy-MM-dd")` gives `d` back.
  - This identity is an assumption, not a proved fact. `MockDataFacts.FixtureDueDatesAreDayKeys` shows only that the fixture dates are well-formed day texts.
  - JavaScript reads a date-only text as midnight UTC, while `format` and `isSameDay` use local time.
  - So the identity holds only where the local offset from UTC is zero or positive. West of UTC every task would be bucketed and highlighted one day early.
  - A malformed date, for which `format` throws, is not modelled either.
- The insertion order of `Object.keys` is modelled as first-appearance order. JavaScript places integer-like keys first, and such keys cannot occur for `yyyy-MM-dd` texts. The special key `__proto__` is not modelled.
- Strings are sequences of Unicode characters, not of UTF-16 code units. For a name that starts with a character outside the Basic Multilingual Plane, `n[0]` in the source gives a lone surrogate, while `Productivity.Initials` gives the whole character.
- Numbers: task counts, seconds and progress are unbounded integers. Hours, estimates and goal values are exact `real`s, not IEEE doubles. `formatTime` is modelled on integer seconds only.
- The other fixtures of `dashboard-mock-data.ts`, from line 265 on (team members, activities, quotes and the like), are only displayed and are not modelled. Neither are the goal percentages' floating-point rounding and the charts.
- Nothing is said about settings switches, the archive option or e-mail notifications. They are plain boolean state without logic.
