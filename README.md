# Date-picker Screenplay core, modelled in Dafny

The repository is an end-to-end suite for a jQuery UI date picker, written in the Screenplay
pattern. An `Actor` owns a browser page. The actor runs *tasks*, which change the page, and asks
*questions*, which read it. This model covers the parts of that code that have logic of their own:

- `outcomes.dfy` (module `Outcomes`): the values a browser call returns. A read gives `Result`:
  a value or a failure. A task run gives `Outcome`: the state reached, and the failure if there
  was one. An awaited `Promise<void>` settles as `Completion`.
- `actor.dfy` (module `Actors`): the class `Actor` with its constant `name` and `page`. It has
  the fail-fast loop `AttemptsTo` and the pass-through `Asks`. A task is a function from the
  page's state to an `Outcome`. `AttemptsTo` is proved against the fold `RunAll`. `RunAll` is
  proved equal to an independent definition that recurses from the last task (`RunFromEnd`),
  and it is proved to fail fast.
- `questions.dfy` (module `DatePickerQuestions`): the pure questions.
  - `DateInputFormat` classifies the input value. The anchored pattern
    `^(0[1-9]|1[0-2])\/(0[1-9]|[12][0-9]|3[01])\/\d{4}$` is written out position by position.
    It is proved to accept exactly the strings made of two ASCII digits, `/`, two digits, `/` and four digits, with a month from
    1 to 12 and a day from 1 to 31 (`IsLooseDate`).
  - The `|| ''` fallback of `CurrentMonth`/`CurrentYear`.
  - The catch-to-`false` of `IsDateEnabled`.
- `tasks.dfy` (module `DatePickerTasks`): every task factory. The datatype `Task` lists the
  catalogue and `Script` gives each task's fixed list of opaque widget commands. Each factory is
  also a method on the actor's page, which here is a log of the commands carried out. Each
  method is proved to leave exactly the log and settlement that `IssueAll` of its script gives.
  `IssueAll` is proved to match a reference description (`IsRunOf`) that determines the
  outcome uniquely: a prefix of the script is logged, each logged command was accepted at its
  turn, and the run stops at the first refused command.

The widget's behaviour is a parameter, `Widget`. It only says whether the next command fails,
given the commands issued before it. What a click does to the calendar is not modelled.
Browser reads are inputs to the question functions.

## Model

| member | source | states |
|---|---|---|
| `DatePickerQuestions.ClassifyDateInput` | src/questions/datepicker.questions.ts:46-48 | the answer is always one of `'MM/DD/YYYY'` or `'INVALID'`; an accepted value has length 10, `/` at indices 2 and 5, and ASCII digits at every other index |
| `DatePickerQuestions.DateInputFormat` | src/questions/datepicker.questions.ts:42-49 | the question fails only when reading the input value fails, and then with the same error; a value that was read is always classified and never causes an error |
| `DatePickerQuestions.ClassifyAcceptsLooseDates` | src/questions/datepicker.questions.ts:47 | a value is accepted if and only if it is two ASCII digits, `/`, two digits, `/`, four digits, with month 1–12 and day 1–31, with no check of the month's length |
| `DatePickerQuestions.MonthFieldIsRange` | src/questions/datepicker.questions.ts:47 | the month group (`0[1-9]` or `1[0-2]`) matches exactly the two-digit fields whose value is 1 to 12 (so a single-digit month is rejected) |
| `DatePickerQuestions.DayFieldIsRange` | src/questions/datepicker.questions.ts:47 | the day group (`0[1-9]`, `[12][0-9]` or `3[01]`) matches exactly the two-digit fields whose value is 1 to 31 |
| `DatePickerQuestions.SurroundingCharactersRejected` | src/questions/datepicker.questions.ts:47 | because of the anchors, one more character before or after an accepted value makes it `'INVALID'` |
| `DatePickerQuestions.ClassifyExamples` | src/questions/datepicker.questions.ts:47-48 | `00/15/2025`, `13/15/2025`, `6/15/2025`, `06/00/2025`, `06/32/2025`, `06/15/202`, `06/15/20255`, `06-15-2025` and `''` are `'INVALID'`; `06/15/2025`, `02/31/2025` and `04/31/2025` are accepted |
| `DatePickerQuestions.OrEmpty` | src/questions/datepicker.questions.ts:17 | JavaScript's or-empty fallback gives `''` for a null text and gives any other text unchanged, whether or not it is empty |
| `DatePickerQuestions.CheckedOptionText` | src/questions/datepicker.questions.ts:14-24 | `CurrentMonth`/`CurrentYear` answer `''` when the checked option has no text, give the text unchanged otherwise, and pass on a failed read |
| `DatePickerQuestions.IsDateEnabled` | src/questions/datepicker.questions.ts:26-34 | the answer is `true` exactly when the lookup succeeded and the day link is visible; any failure gives `false` and is never passed on |
| `Actors.RunAllEmpty` | src/actors/actor.ts:7 | an empty task list succeeds and leaves the state unchanged |
| `Actors.RunAllAppend` | src/actors/actor.ts:6-10 | running `a + b` is running `a` and then, only if `a` succeeded, running `b` on the state `a` left |
| `Actors.RunAllLeftToRight` | src/actors/actor.ts:7-9 | the fold equals the definition that recurses from the last task: tasks run in the order given, and each starts from the state the previous one left |
| `Actors.FailFast` | src/actors/actor.ts:6-10 | when task `k` is the first to fail, the run returns exactly that task's failure and state |
| `Actors.LaterTasksNeverRun` | src/actors/actor.ts:7-9 | after a failed prefix, tasks appended behind it change nothing |
| `Actors.Actor.constructor` | src/actors/actor.ts:4 | `name` and `page` are the constructor's arguments; they are constants afterwards |
| `Actors.Actor.AttemptsTo` | src/actors/actor.ts:6-10 | the page's new state and the settlement are exactly those of the fail-fast fold over the tasks, each applied to this actor's page |
| `Actors.Actor.Asks` | src/actors/actor.ts:12-14 | the answer is the question's result on the page; nothing is changed |
| `DatePickerTasks.IssueAllIsRun` | src/task/datepicker.tasks.ts:36-39 | a run logs a prefix of its commands, each accepted at its turn; it succeeds if and only if all were logged, and otherwise fails with the widget's error for the first command not logged |
| `DatePickerTasks.RunIsUnique` | src/task/datepicker.tasks.ts:36-39 | the reference description of a run admits exactly one outcome |
| `DatePickerTasks.IssueAllAppend` | src/task/datepicker.tasks.ts:34-40 | issuing `a + b` is issuing `a` and then, only if nothing in `a` failed, issuing `b` |
| `DatePickerTasks.RepeatIsCount` | src/task/datepicker.tasks.ts:53-55 | the counted loop issues exactly `max(n, 0)` commands, all of them the same one |
| `DatePickerTasks.NavigationScripts` | src/task/datepicker.tasks.ts:50-64 | `NavigateMonthsBackward(n)` issues `max(n, 0)` Prev clicks and nothing else; `NavigateMonthsForward(n)` issues `max(n, 0)` Next clicks and nothing else |
| `DatePickerTasks.SingleStepScripts` | src/task/datepicker.tasks.ts:4-32 | each single-step task issues exactly one command |
| `DatePickerTasks.CompleteDateScript` | src/task/datepicker.tasks.ts:34-40 | `SelectCompleteDate(m, y, d)` issues click on the input, month `m`, year `y`, day `d`, in that order |
| `DatePickerTasks.ChangeIsSelectComplete` | src/task/datepicker.tasks.ts:42-48 | `ChangeExistingDate` issues the same commands as `SelectCompleteDate`, so every run of the two is the same |
| `DatePickerTasks.OneMonthNavigation` | src/task/datepicker.tasks.ts:14-22 | `NavigateToPreviousMonth`/`NavigateToNextMonth` issue the same commands as the counted tasks with a count of one |
| `DatePickerTasks.AttemptsToIssuesScripts` | src/actors/actor.ts:6-10 | an actor attempting several date-picker tasks issues the commands of all of them in order and stops at the first command that fails |
| `DatePickerTasks.ClickOnDateField` | src/task/datepicker.tasks.ts:4-7 | the log and settlement are those of issuing a click on the date input |
| `DatePickerTasks.SelectDate` | src/task/datepicker.tasks.ts:9-12 | the log and settlement are those of issuing a click on day `day` |
| `DatePickerTasks.NavigateToPreviousMonth` | src/task/datepicker.tasks.ts:14-17 | the log and settlement are those of issuing one Prev click |
| `DatePickerTasks.NavigateToNextMonth` | src/task/datepicker.tasks.ts:19-22 | the log and settlement are those of issuing one Next click |
| `DatePickerTasks.SelectMonthFromDropdown` | src/task/datepicker.tasks.ts:24-27 | the log and settlement are those of issuing a month selection of `month` |
| `DatePickerTasks.SelectYearFromDropdown` | src/task/datepicker.tasks.ts:29-32 | the log and settlement are those of issuing a year selection of `year` |
| `DatePickerTasks.SelectCompleteDate` | src/task/datepicker.tasks.ts:34-40 | running the four sub-tasks, each awaited, ends exactly as issuing the composite script with fail-fast |
| `DatePickerTasks.ChangeExistingDate` | src/task/datepicker.tasks.ts:42-48 | the same four steps, written out separately, end exactly as issuing its script |
| `DatePickerTasks.ClickRepeatedly` | src/task/datepicker.tasks.ts:53-55 | the counted loop `i < n` ends exactly as issuing `n` copies of the click, stopping at the first rejection |
| `DatePickerTasks.NavigateMonthsBackward` | src/task/datepicker.tasks.ts:50-56 | the log and settlement are those of issuing its script of Prev clicks |
| `DatePickerTasks.NavigateMonthsForward` | src/task/datepicker.tasks.ts:58-64 | the log and settlement are those of issuing its script of Next clicks |

## Left out

- `src/ui/datepicker.page.ts` is not part of this model. It only maps names to Playwright locator
  strings. What those locators mean (frame traversal, exact role-name matching, `:has-text`) is
  defined by the browser library. Sending a command to the page is the single primitive `Send`.
  Whether it fails is the `Widget` parameter.
- What the widget does in response to a command (the displayed month after Prev, the value
  written into the input) is not modelled. Commands are opaque. So the scenarios in `tests/` are
  not stated as theorems; they describe the remote widget.
- `IsCalendarVisible`, `SelectedDateValue`, `DateFieldValue`, `IsDateDisabled`,
  `IsMonthDropdownVisible`, `IsYearDropdownVisible`, `AvailableYears` and `AvailableMonths`
  return a browser read unchanged, a failure included. They have no logic beyond the read, so
  they are not modelled.
- Promises, awaiting and timing are modelled only as sequencing. A task settles as `Completion`
  and runs to the end before the next starts. So are `waitForTimeout`, visibility and
  `inputValue` reads, navigation and browser sessions.
- Parallel actors are not modelled. Each actor owns its page, and the test runner does the
  concurrency.
- `DatePickerTasks.NavigateMonthsBackward`: the count is an integer. TypeScript's `number` may
  also be fractional, where `i < n` gives `ceil(n)` clicks, or `NaN`, which gives none.
- `DatePickerQuestions.ClassifyDateInput`: a Dafny `char` is a Unicode scalar value, while
  JavaScript strings are UTF-16. A character outside the Basic Multilingual Plane has a different
  length in the two. Any such character makes the value invalid in both, so the verdict agrees.
- A task in `Actors` is a total function of the page state. A task that reads other fields of
  the actor is not modelled. The date-picker tasks read only the page.
