# Pixel Quest: a verified model of the day-tile data core

Pixel Quest is a browser habit tracker. It shows a week as a row of seven "pixel" tiles. Each day has a record: an optional mood (happy, neutral or sad) and an ordered list of tasks. A tile's category (`empty`, `poor`, `average`, `good`, `excellent`) is derived from that record. This project models the deterministic core of the `PixelQuest` class in `script.js`:

- the tile classifier `getTileType`;
- the day-record store, whose read `getDayData` creates and stores an empty record for a date it has not seen;
- the commands that edit the selected day (mood, add, toggle and delete task), the avatar command, the week navigation and the date selection;
- the week arithmetic of `getWeekDates` and the numbers shown by `updateStats`.

Modules follow the components: `Text` (the `trim()` that guards `addTask`), `Records` (moods, tasks, day records and the three task-list edits), `TileClassifier`, `Stats`, `DateUtil`, and `PixelQuestApp`. `PixelQuestApp` holds the `PixelQuest` class with fields `data` (user plus the map of days), `currentWeek`, `selectedDate` and a ghost `saved`. `saved` is the blob last written to storage. `saveData` sets it to the current `data`, so each command's contract says whether it persists.

Modelling choices:
- A date is an integer day number. Its weekday is `d % 7`, with 0 for Sunday as `getDay()` has it. Records are keyed by day number.
- The clock is a parameter: `today` stands for `new Date()` and `id` for `Date.now()`.
- The stored blob is a constructor parameter (`None` when storage holds nothing).
- The completion-rate tests `rate === 1` and `rate >= 0.5` are stated on integer counts: `completed == total` and `2 * completed >= total`.
- `Math.round(c / t * 100)` is idealised as `(200c + t) div 2t`, the integer nearest to `100c/t` with halves rounded up.

Two results go beyond a plain reading of the code:
- Productivity shows 100 exactly when `200 * completed >= 199 * total`. That means "100 iff every task is done" holds only for fewer than 200 tasks. For example, 399 of 400 done already rounds to 100 (`Stats.FullPercentBeforeAllDone`).
- `toggleTask` and `deleteTask` read the selected day before checking the index. Taken alone, a toggle or delete that does nothing would leave an empty record in memory for a day never seen before, without saving it. In the running program this cannot happen: the selected day has always been read through `getDayData` already, at start-up (`init` calls `renderControlPanel`, script.js:22 and 189) and on every `selectDate` (script.js:170 and 189).

Two behaviours of the code worth noting:
- `loadData` does not guard `JSON.parse`, so malformed storage throws rather than falling back to the default.
- Day keys come from `toISOString`, which is UTC, not the local calendar date.

## Model

| member | source | states |
|---|---|---|
| `Text.Trim` | script.js:340 | the trimmed text is empty exactly when every input character is white space; otherwise it neither starts nor ends with white space |
| `Text.TrimSlice` | script.js:340 | the trimmed text is a contiguous slice of the input, and only white space lies outside it |
| `Text.TrimIdempotent` | script.js:340 | a trimmed text is unchanged by trimming again (so stored task texts stay trimmed) |
| `Records.CompletedCount` | script.js:88 | the number of completed tasks is at most the total |
| `Records.CompletedCountExtremes` | script.js:88 | the count equals the total iff every task is completed, and is 0 iff none is |
| `Records.CompletedCountIsCardinality` | script.js:88 | the filtered length equals the number of positions holding a completed task |
| `Records.Appended` | script.js:345-351 | push adds exactly one unfinished task with the given id and text at the end, keeps every earlier task, and keeps the completed count |
| `Records.Toggled` | script.js:366 | the toggle keeps the length, flips only `completed` of task `i` (its id and text kept), and leaves every other task as it was |
| `Records.Removed` | script.js:379 | the splice drops exactly task `i`: one shorter, tasks before `i` in place, later tasks moved down by one, the multiset of tasks less exactly that task |
| `Records.ToggledTwice` | script.js:366 | toggling the same index twice restores the task list |
| `Records.ToggledCount` | script.js:366 | a toggle changes the completed count by exactly one, down when the task was completed and up otherwise |
| `Records.RemovedCount` | script.js:379 | a delete lowers the completed count by one exactly when the removed task was completed |
| `TileClassifier.Classify` | script.js:83-101 | `empty` iff no mood or no tasks; `excellent` iff happy with every task done; `good` iff happy, at least half but not all done; `average` iff neutral with at least half done; `poor` iff a mood and tasks and (sad or less than half done); a sad day never ranks above `poor` |
| `TileClassifier.HappyHalfDoneIsGoodOrBetter` | script.js:88-95 | a happy day with tasks is `good` or `excellent` exactly when at least half of its positions hold a finished task |
| `TileClassifier.ClassifyExamples` | script.js:83-101 | the listed concrete days: no mood or no tasks are `empty`, happy with [done, done] is `excellent`, happy with [done, undone] is `good`, neutral with [done, undone] is `average`, sad with [done, done] is `poor`, happy with one of three done is `poor` |
| `Stats.RoundedPercent` | script.js:234 | the result is the integer nearest to 100c/t, halves up; it is at most 100, is 100 iff 200c >= 199t (hence iff c == t when t < 200), and is 0 iff 200c < t |
| `Stats.StatsOf` | script.js:229-234 | total is the number of tasks; completed is the completed count and at most the total; productivity is 0 with no tasks, otherwise the rounded percentage in [0, 100], and is 100 iff all done when there are fewer than 200 tasks |
| `Stats.FullPercentBeforeAllDone` | script.js:234 | 399 done out of 400 already shows 100 percent |
| `DateUtil.Weekday` | script.js:71 | the weekday is in 0..6, and subtracting it from a date gives a Sunday |
| `DateUtil.WeekStart` | script.js:69-71 | the shown week starts on a Sunday, and that Sunday begins the seven days containing `today + 7 * weekOffset` |
| `DateUtil.WeekDates` | script.js:68-80 | exactly 7 dates; the first is `today - weekday(today) + 7 * weekOffset` and is a Sunday; each next date is one day on; the dates are exactly the days of that range; for offset 0, today is among them |
| `DateUtil.NextWeekShifts` | script.js:71 | one week forward moves the start of the shown week by seven days |
| `DateUtil.WeekOfDay` | script.js:68-80 | a day lies in the week of offset k iff k is its whole-week distance from the current week, so every day appears in exactly one week |
| `PixelQuestApp.Touched` | script.js:46-55 | after one mutating read the stored keys are the old ones plus the date; old records are unchanged, and a new one is the empty record |
| `PixelQuestApp.MaterializedStep` | script.js:111-112 | reading one more date of a week extends the set of materialised dates by that date and keeps what earlier reads created |
| `PixelQuestApp.PixelQuest.constructor` | script.js:5-37 | the data is the stored blob, or the default user with no days; the week offset is 0, the selection is today, and storage is as found |
| `PixelQuestApp.PixelQuest.SaveData` | script.js:41-43 | the persisted snapshot becomes the whole current state |
| `PixelQuestApp.PixelQuest.GetDayData` | script.js:46-55 | returns the stored record unchanged when present; otherwise inserts and returns exactly the empty record; no other key or field changes, and nothing is saved |
| `PixelQuestApp.PixelQuest.SetMood` | script.js:297-299 | the selected day's mood is set (its tasks kept, the record created if absent); no other day changes; the state is saved |
| `PixelQuestApp.PixelQuest.SetAvatar` | script.js:288-289 | the avatar number is stored unvalidated; days and name are unchanged; the state is saved |
| `PixelQuestApp.PixelQuest.AddTask` | script.js:338-358 | blank input after trimming changes nothing and saves nothing; otherwise one unfinished task with the trimmed text is appended to the selected day, no other day changes, the state is saved, and well-formed task texts stay well-formed |
| `PixelQuestApp.PixelQuest.ToggleTask` | script.js:362-372 | a valid index flips that task only and saves; any other index leaves the tasks and the snapshot unchanged but still materialises the selected day in memory |
| `PixelQuestApp.PixelQuest.DeleteTask` | script.js:375-385 | a valid index removes exactly that task, keeps the order of the rest, and saves; any other index leaves the tasks and the snapshot unchanged but still materialises the selected day |
| `PixelQuestApp.PixelQuest.PrevWeek` | script.js:273-276 | the week offset decreases by one and nothing else changes |
| `PixelQuestApp.PixelQuest.NextWeek` | script.js:278-281 | the week offset increases by one and nothing else changes |
| `PixelQuestApp.PixelQuest.SelectDate` | script.js:167-168 | the selected date becomes the given date and nothing else changes |
| `PixelQuestApp.PixelQuest.UpdateStats` | script.js:229-234 | returns the stats of the selected day's tasks; its only state effect is materialising the selected day, without saving |
| `PixelQuestApp.PixelQuest.WeekTiles` | script.js:104-115 | one tile per shown date, in order, each classified from the record as it was and flagged today/selected; every shown date is materialised in memory, nothing else changes, and nothing is saved |
| `PixelQuestApp.ToggleTwice` | script.js:362-372 | two toggles of one index leave the tasks as they were; the only lasting effects are the materialised selected day and, for a valid index, a save |
| `PixelQuestApp.AddSecondTaskScenario` | script.js:338-355 | a happy day with one finished task, after adding a second task, shows 1 of 2 done at 50 percent and classifies as `good` |

## Left out

- Drawing is not modelled: DOM building, event wiring, the mood-button highlight, the task list markup, the modal and the week label (script.js:104-164, 185-226, 242-335). Only the data these read is modelled.
- The source re-renders after every command and at start-up (`renderMap`, `renderControlPanel`, `updateStats`). Those reads also materialise the shown week's records and the selected day. The command methods do not include that re-render. Its state effect is what `WeekTiles`, `UpdateStats` and `GetDayData` model; a caller composes them after a command.
- `renderControlPanel` and `showDayModal` change nothing beyond their `getDayData` read, which is `GetDayData`. `showDayModal` has no caller in script.js.
- The random decoration (`Math.random()`) and the emoji lookups are cosmetic.
- No effect on storage other than the ghost `saved` is modelled. `localStorage` and `JSON.parse`/`JSON.stringify` are foreign calls. The constructor receives the already parsed blob. An empty stored string counts as absent, as `saved ?` treats it. The exception `JSON.parse` throws on malformed data is not modelled. No serialisation round-trip is claimed.
- Real `Date` semantics are not modelled: time of day, time zones, month rollover in `setDate`, and the UTC key from `toISOString`, which can differ from the local date shown. Dates are abstract day numbers; the clock is the `today` parameter and task ids the `id` parameter.
- `Stats.RoundedPercent`: the integer idealisation of `Math.round(c / t * 100)`; floating-point rounding at exact halves is not modelled. The two already differ at 40 tasks: for 23 of 40 done, `23 / 40 * 100` evaluates in doubles to 57.49999999999999, so the page shows 57, while `RoundedPercent(23, 40)` is 58.
- `TileClassifier.Classify`: states the rate tests on integer counts. Floating-point `c / t` agrees with them for any realistic number of tasks; this is not proved.
- The mood button stores its `data-mood` string. The model's `Mood` has only the three moods the page offers.
- `PixelQuestApp.PixelQuest.SetAvatar`: like the source, it does not check the avatar number. The out-of-range emoji lookup an invalid number would cause in `renderMap` is not modelled.
- `parseInt` of the buttons' index strings is not modelled; the methods take the parsed integer. A `NaN` index behaves as an out-of-range one.
- Clearing the input box after `addTask` (script.js:357) is DOM state and is not modelled.
