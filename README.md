# Habit tracker screens — a Dafny model

This project models the sequential logic of three screens of a habit-tracking
mobile client:

- the **day screen** (`src/screens/Habit.tsx`), which loads the habits
  scheduled on one date and the ids already completed, toggles one habit's
  completion after the service confirms it, locks dates that are already past,
  and guards the progress value against an empty day;
- the **new-habit form** (`src/screens/New.tsx`), which toggles weekday indices
  in and out of a selection, refuses to post a habit with a blank title or no
  weekday, and clears the form after a successful post;
- the **home grid** (`src/screens/Home.tsx`), which lays out one cell per day
  of the year so far, followed by filler cells up to a minimum of 18 × 5 = 90.

Modules:

- `ListToggle` (`list_toggle.dfy`): the remove-or-append toggle both screens
  apply to a list (`filter` when the element is present, spread-append when it
  is absent), with its order, duplicate-freedom and double-toggle properties.
- `Calendar` (`calendar.dfy`): days as integer indices, instants as
  milliseconds on the local time line, and the past-date rule.
- `Remote` (`remote.dfy`): a service reply (`Ok(payload)` or `Failed`) and
  an optional value.
- `HabitScreen` (`habit.dfy`): the class `DayCompletion` with the component's
  state fields `loading`, `habitsAtDay` and `completedHabits`.
- `NewHabitScreen` (`new_habit.dfy`): `trim`, the create guard, and the class
  `NewHabitForm` with the state fields `weekdays` and `title`.
- `HomeScreen` (`home.dfy`): the filler amount and the grid layout.

Every awaited request (`GET day`, `PATCH habits/{id}/toggle`, `POST habits`) is
a `Reply` argument of the method that awaits it; "now" (`new Date()`) is an
`Instant` argument; the day list of the home screen is an argument, because
the function producing it (`getAllYearDaysUntilNow`) is not part of this model.

The home screen renders each real day with only its key: no day summary is
fetched or matched to the days in this code, so the model has no
summary-to-day reconciliation and no progress value per grid cell.

## Model

| member | source | states |
|---|---|---|
| `ListToggle.Remove` | src/screens/Habit.tsx:64-66 | the filtered list no longer holds the id, every other element keeps its membership and its multiplicity |
| `ListToggle.Toggle` | src/screens/Habit.tsx:63-69 | a present id is filtered out (`Remove`), so it is gone entirely and the rest keep their order; an absent id is appended after the unchanged list; its membership flips and no other element's does |
| `ListToggle.RemoveConcat` | src/screens/Habit.tsx:64-66 | filtering distributes over concatenation, so the kept ids stay in their original order |
| `ListToggle.RemoveAbsent` | src/screens/Habit.tsx:64-66 | filtering out an id that is not there leaves the list unchanged |
| `ListToggle.ToggleKeepsNoDup` | src/screens/Habit.tsx:63-68 | a duplicate-free list stays duplicate-free after a toggle |
| `ListToggle.ToggleKeepsWithin` | src/screens/Habit.tsx:100-105 | toggling an id drawn from a set keeps a list inside that set inside it |
| `ListToggle.ToggleTwice` | src/screens/Habit.tsx:63-68 | two toggles of one id restore its membership; of an absent id, the list itself; of any id in a duplicate-free list, its contents |
| `Calendar.EndOfDay` | src/screens/Habit.tsx:35 | the end of a day is the last instant inside that day: the next instant starts the following day |
| `Calendar.IsPastDate` | src/screens/Habit.tsx:35 | a date is past when its end of day lies strictly before now |
| `Calendar.PastIffBeforeToday` | src/screens/Habit.tsx:35 | a date's end of day is before now exactly when the date comes before the day containing now |
| `HabitScreen.ProgressPercentage` | src/screens/Habit.tsx:39-41 | the progress is 0 when there is no day data or no habit is available, and otherwise the percentage helper applied to the available and completed counts |
| `HabitScreen.DayCompletion.Progress` | src/screens/Habit.tsx:39-41 | the screen's progress is 0 while the day has no data or no available habit, and otherwise the percentage helper applied to the number of available habits and the current number of completed ids |
| `HabitScreen.DayCompletion.constructor` | src/screens/Habit.tsx:27-29 | the screen starts loading, without day data and with no completed id |
| `HabitScreen.DayCompletion.FetchHabits` | src/screens/Habit.tsx:43-57 | after a successful load the day data and the completed ids are the fetched ones; after a failed one they are unchanged and a load notice is raised; loading is off either way |
| `HabitScreen.DayCompletion.HandleHabitToggle` | src/screens/Habit.tsx:59-74 | after a confirmed request the completed ids are the toggle of the old ones and the id's membership flipped; after a failed request nothing changes and a toggle notice is raised |
| `HabitScreen.DayCompletion.Checkboxes` | src/screens/Habit.tsx:99-108 | no rows while loading or without data; otherwise one row per available habit in order, checked exactly when its id is completed, disabled exactly when the date is before today |
| `HabitScreen.DayCompletion.Press` | src/screens/Habit.tsx:100-106 | a press on a past date issues no request and changes nothing; otherwise it requests the toggle of that row's habit and raises a toggle notice exactly when that request fails; completed ids inside the available ids stay inside them |
| `NewHabitScreen.IsWhitespace` | src/screens/New.tsx:33 | the characters `trim` strips: the ECMAScript whitespace and line-terminator code points |
| `NewHabitScreen.TrimStart` | src/screens/New.tsx:33 | the result is the suffix of the string after its leading whitespace |
| `NewHabitScreen.TrimEnd` | src/screens/New.tsx:33 | the result is the prefix of the string before its trailing whitespace |
| `NewHabitScreen.Trim` | src/screens/New.tsx:33 | the trimmed title is the middle slice of the title with only whitespace before and after it, empty exactly when the title is blank, and otherwise starting and ending with non-whitespace |
| `NewHabitScreen.CanCreate` | src/screens/New.tsx:33 | a habit may be posted exactly when the title has a non-whitespace character and a weekday is selected |
| `NewHabitScreen.NewHabitForm.constructor` | src/screens/New.tsx:20-21 | the form starts with no weekday and an empty title |
| `NewHabitScreen.NewHabitForm.ChangeTitle` | src/screens/New.tsx:67 | the title becomes the typed text; the weekdays are unchanged |
| `NewHabitScreen.NewHabitForm.HandleToggleWeekday` | src/screens/New.tsx:23-29 | the weekdays are the toggle of the old ones; toggling an index of the seven weekdays keeps them distinct indices in 0..6 |
| `NewHabitScreen.NewHabitForm.HandleCreateNewHabit` | src/screens/New.tsx:31-44 | an invalid form posts nothing and stays as it was; a valid one posts its untrimmed title and weekdays; after success the form is cleared, after failure it is unchanged |
| `NewHabitScreen.NewHabitForm.ResetState` | src/screens/New.tsx:46-49 | the title is empty and no weekday is selected |
| `HomeScreen.AmountOfDaysToFill` | src/screens/Home.tsx:10-11 | the days and the amount to fill add up to 90; the amount is positive exactly when there are fewer than 90 days |
| `HomeScreen.Fillers` | src/screens/Home.tsx:45-51 | a positive amount yields that many fillers keyed 0, 1, …; a non-positive one yields none |
| `HomeScreen.Grid` | src/screens/Home.tsx:36-52 | the grid has max(days, 90) cells: the days first in their given order, then fillers |
| `HomeScreen.GridFillerCount` | src/screens/Home.tsx:45 | the grid holds exactly 90 − days fillers when there are fewer than 90 days, and none otherwise |

## Left out

- Rendering, styling, navigation, the back button, alerts' texts and console logging: user interface with no logic; alerts appear only as a `Notice` result.
- The transport of the requests (`api.get`, `api.patch`, `api.post`): each reply is an input; the request URL and query parameters are not modelled.
- Date parsing and formatting (`dayjs(date)`, `format('dddd')`, `'DD/MM'`) and time zones: a date is an integer day index and every day lasts exactly 86 400 000 ms, so days shortened or lengthened by daylight-saving changes are not modelled.
- `generateProgressPercentage` and its rounding are not part of this model: the progress value takes that helper as a function argument and only the zero guard is modelled.
- `getAllYearDaysUntilNow` is not part of this model: the home grid takes the day list as an argument, so that it runs from January 1st to today in ascending order is not modelled.
- The weekday header row of the home screen and the `DAY_SIZE` of cells: constants of layout only.
- `HabitScreen.DayCompletion.HandleHabitToggle`: the source tests the completed list captured when the handler was created and updates the list current when the update runs; the model reads and updates one list, so two overlapping toggles (an asynchronous race) are not modelled.
- `HabitScreen.DayCompletion.FetchHabits`: a reply that arrives after the user left the screen, and a malformed payload, are not modelled.
- `NewHabitScreen.NewHabitForm.HandleCreateNewHabit`: the JavaScript truthiness of the trimmed title is modelled as "the trimmed string is not empty"; `trim` is modelled over the ECMAScript whitespace and line-terminator code points, with strings as sequences of code points rather than UTF-16 units.
