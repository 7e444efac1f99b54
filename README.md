# Spaced-repetition to-do scripts, modelled in Dafny

The repository holds three stand-alone Python scripts. Each expands a
reminder into spaced-repetition to-do tasks and pushes them to one service:

- `google_task-script.py` sends them to Google Tasks;
- `todoist-script.py` sends them to Todoist;
- `habitica-script.py` sends them to Habitica.

This project models the part of each script that does not depend on HTTP,
OAuth or environment plumbing, and proves properties of that model:

- **The due-date scheduler.** `generate_due_dates` and
  `generate_spaced_repetition_dates` add 2, 7, 14, 30 and 90 calendar days
  to a base datetime and pin the time to 23:00:00. Dates are proleptic
  Gregorian day ordinals, with conversions to and from (year, month, day),
  as Python's `datetime` does it.
- **The payload each `create_todo` builds.**
  - Google: `isoformat() + "Z"`.
  - Todoist: `YYYY-MM-DD at HH:MM` with `due_lang="en"`.
  - Habitica: a `YYYY-MM-DD` date and priority 2.

  Each rendering has a decoder and a round-trip lemma.
- **The issuing loops of each `main`.** Every remote call is replaced by
  an outcome oracle, `respond: nat -> Outcome<E>`, which gives the outcome
  of the j-th call.
  - Google re-raises, so its loop stops at the first failure.
  - Todoist swallows every failure.
  - Habitica swallows HTTP and network errors but not other exceptions.
- **The console prompts.** The console is a sequence of lines, each holding
  its text and what `int()` makes of it. Covered are the task-list
  selection, the Todoist project choice (0 is the Inbox), the priority
  1 .. 4, and the case-insensitive `done` sentinel. Running out of input
  (Python's `EOFError`) ends a session.

The modules, one file each:

- `Common`: `Option`, `Result`, `Outcome`, and the `Call` record (the
  request sent and the exception raised).
- `Calendar`: the date model and the ordinal conversions.
- `DayArithmetic`: `date + timedelta(days=k)`, plus a day-by-day reference
  definition.
- `Text`: zero-padded renderings and their decoders.
- `Console`: prompts and `done`.
- `Batches`: concatenated batches, and the cut after the first failure.
- `Schedule`: the due-date expression shared by all three scripts.
- `GoogleTasks`, `Todoist`, `Habitica`: one module per script.

How failures end a session, as the code has it:

- `create_todo` in `google_task-script.py` re-raises the `HttpError`
  (lines 133-140), and `main` catches it only outside both loops
  (lines 208-213), so the first failed insert ends the whole session.
- `create_todo` in `todoist-script.py` catches every exception, so a
  failed `add_task` never stops the loop.
- In `habitica-script.py` an exception that is not a `requests` exception
  escapes `create_todo` and `main`.
- None of the scripts builds a result record. What the model observes is
  the sequence of requests sent and how the session ended.

## Model

| member | source | states |
|---|---|---|
| Schedule.DueDates | google_task-script.py:154-159 | One due datetime per offset, in the offsets' order. Result i is valid, falls exactly `days[i]` days after the base date, and is at 23:00:00.000000. |
| Schedule.DueDatesFollowOffsets | google_task-script.py:154-159 | Permuting or repeating the offsets permutes or repeats the results the same way: result i belongs to offset i, not to a sorted position. |
| Schedule.DueAtCountsDays | google_task-script.py:155-156 | Adding k days through the ordinal equals stepping k times through the calendar, one day at a time (an independent reference). |
| Schedule.MonthBoundaryExample | google_task-script.py:155-156 | One day after 2024-01-31, at any time of day, is 2024-02-01 at 23:00. |
| Schedule.LeapYearExample | google_task-script.py:155 | The day after 2024-02-28 is 2024-02-29. |
| Schedule.CenturyYearExample | google_task-script.py:155 | The day after 1900-02-28 is 1900-03-01, since 1900 is not a leap year. |
| Schedule.CadenceFitsExactly | google_task-script.py:196-197 | The whole cadence stays within year 9999 exactly when the 90-day offset does. |
| Schedule.CadenceIncreasing | todoist-script.py:138 | The intervals 2, 7, 14, 30, 90 strictly increase. |
| DayArithmetic.AddDays | google_task-script.py:155 | `date + timedelta(days=k)` is the valid date whose ordinal is k more. |
| DayArithmetic.AddOneDayIsNextDay | google_task-script.py:155 | Adding one day gives the calendar successor: the next day of the month, the first of the next month, or 1 January. |
| DayArithmetic.AddDaysIsCounting | google_task-script.py:155 | Adding k ≥ 0 days equals k single-day steps. |
| DayArithmetic.AddDaysCompose | google_task-script.py:155 | Adding a days and then b days is adding a + b days. |
| DayArithmetic.PlusDays | google_task-script.py:155 | `datetime + timedelta(days=k)` moves the date by k days and keeps the time of day. |
| Calendar.FromOrdinal | google_task-script.py:155 | Turning an ordinal in 1 .. 3652059 into a date gives a valid date with that ordinal. |
| Calendar.FromToOrdinal | google_task-script.py:155 | Ordinal to date undoes date to ordinal, and every valid date's ordinal is in 1 .. 3652059. |
| Calendar.OrdinalOrder | todoist-script.py:138-145 | Ordinals order dates as the calendar does (both directions). |
| Calendar.OrdinalInjective | google_task-script.py:155 | Distinct valid dates have distinct ordinals. |
| Calendar.DaysInMonth | google_task-script.py:155 | A month has 28 .. 31 days, and 29 exactly for February of a leap year. |
| Text.DateTextRoundTrip | habitica-script.py:43 | `strftime("%Y-%m-%d")` of a valid date reads back as that date. |
| Text.ClockTextRoundTrip | todoist-script.py:48 | `%H:%M` reads back as the hour and minute. |
| Text.IsoFormatRoundTrip | google_task-script.py:122 | `isoformat()` of a naive datetime (the fraction appears only when the microseconds are non-zero) reads back as the same datetime. |
| Text.Decimal | todoist-script.py:174 | `str(n)` is a non-empty digit string whose value is n, with no leading zero: it starts with `0` exactly when n is 0. |
| Console.IsDoneCases | google_task-script.py:200-202 | `text.lower() == "done"` holds exactly for the 16 case variants of "done". |
| Console.AskNumber | todoist-script.py:116-125 | A retry prompt: the answer is the first line holding an integer in lo .. hi, and every earlier line was rejected. Input that runs out consumes everything. |
| Console.AskNumberInRange | todoist-script.py:116-125 | An accepted answer lies in lo .. hi. An empty range accepts nothing. |
| Console.AskNumberIgnoresLater | google_task-script.py:180-192 | Once a line is accepted, later input does not change the answer. |
| Batches.UntilFailure | google_task-script.py:133-140 | The calls made when the first raising call aborts the loop: a prefix of the plan; all of it if no call raises; otherwise cut right after the first call that raises. |
| Batches.FailureStops | google_task-script.py:205-206 | A loop that has issued a prefix ending at its first raising call has issued exactly `UntilFailure`'s calls. |
| Batches.ConcatAppend | habitica-script.py:105-109 | The calls of two runs of batches, one after the other, are the two runs' calls concatenated. |
| Batches.ConcatAt | habitica-script.py:105-109 | With n calls per batch, call j * n + k is call k of batch j. |
| GoogleTasks.Project | google_task-script.py:89-93 | The projection succeeds iff every item has `id` and `title`. It then keeps both, in order, one per item. Otherwise the `KeyError` names the first item's missing key. |
| GoogleTasks.ListTaskLists | google_task-script.py:87-96 | A failed list call re-raises its error. A missing `items` gives no task lists. Otherwise the result is the projection of the listed items (`GoogleTasks.Project`): every list's id and title, in order, or the `KeyError`. |
| GoogleTasks.DueWireRoundTrip | google_task-script.py:122 | The `due` value reads back as the very datetime given: the `Z` is appended without any timezone conversion. |
| GoogleTasks.ScheduledDueWire | google_task-script.py:122 | A scheduler datetime serialises as `YYYY-MM-DDT23:00:00Z`. |
| GoogleTasks.CreateTodo | google_task-script.py:116-140 | A non-datetime due date raises ValueError and sends nothing. Otherwise the insert is sent, and its exception, if any, is re-raised. |
| GoogleTasks.CreateTodoPayload | google_task-script.py:119-123 | The request carries the list id, the title and the note unchanged, and a due string that decodes to the due datetime (`...T23:00:00Z` for scheduled dates). |
| GoogleTasks.SelectTaskList | google_task-script.py:180-192 | The selection loop accepts exactly an integer n in 1 .. len(task_lists) and returns task_lists[n-1]. It re-prompts otherwise and consumes the lines `AskNumber` says. |
| GoogleTasks.ReadTitles | google_task-script.py:199-203 | The title loop reads (title, note) pairs from alternate lines, stops at the first `done` title, and drops a title whose note never comes. |
| GoogleTasks.PlannedAppend | google_task-script.py:205-206 | The plan for two runs of titles is the concatenation of their plans. |
| GoogleTasks.PlannedLength | google_task-script.py:196-206 | The title loop plans (number of titles) × len(due_dates) inserts, for any number of titles and dates. |
| GoogleTasks.TitleSessionCalls | google_task-script.py:196-206 | The plan has (number of titles) × len(due_dates) inserts. Insert i × len(due_dates) + k is title i's task for due date k. Every title gets the same dates. |
| GoogleTasks.StopAtFailure | google_task-script.py:205-213 | When an insert raises, the session has sent exactly the inserts up to and including it, and ends with that error. |
| GoogleTasks.IssueBatch | google_task-script.py:205-206 | The inner loop sends a prefix of the title's batch. It ends early only at the insert that raised, and all the others returned. |
| GoogleTasks.IssueTitles | google_task-script.py:199-206 | The title loop sends what `TitleSession` says: the plan cut after the first failing insert, ending Finished, InputEnded or CallFailed. |
| GoogleTasks.Run | google_task-script.py:170-213 | `main` from listing to the title loop does what `Session` says. |
| GoogleTasks.NoListsNoCalls | google_task-script.py:174-192 | With no task lists, no selection is accepted and nothing is sent. |
| Todoist.SpacedRepetitionDates | todoist-script.py:138-145 | Exactly five datetimes, at base + 2, 7, 14, 30 and 90 days, each at 23:00:00.000000. |
| Todoist.SpacedDatesIncrease | todoist-script.py:138-145 | The five dates fall on strictly increasing calendar days. |
| Todoist.DueStringRoundTrip | todoist-script.py:48 | `YYYY-MM-DD at HH:MM` reads back as the date, hour and minute. |
| Todoist.CreateTodo | todoist-script.py:45-65 | A non-datetime raises ValueError and sends nothing. Otherwise `add_task` is called, and no outcome of it escapes. |
| Todoist.CreateTodoPayload | todoist-script.py:48-58 | Content, description, project and priority are forwarded unchanged with `due_lang="en"`, and the due string decodes to the due date and time to the minute. |
| Todoist.Put | todoist-script.py:77 | `d[k] = v` keeps an existing key in place with the new value, or appends a new key. |
| Todoist.ProjectDictKeys | todoist-script.py:77 | The dict's keys are the project names, each once, in order of first appearance. |
| Todoist.ProjectDictIsLastWins | todoist-script.py:77 | Each name maps to the id of the last project with that name. |
| Todoist.ProjectDictDistinct | todoist-script.py:77 | The keys are distinct. |
| Todoist.ProjectDictDistinctNames | todoist-script.py:77 | With distinct names, the dict lists every project, in order. |
| Todoist.FirstAppearancesSameSet | todoist-script.py:77 | A name is among the first appearances iff it occurs at all, so a name is a key iff some project has it. |
| Todoist.GetProjects | todoist-script.py:75-80 | A failed fetch gives `{}`. Otherwise the result is the comprehension's dict: its keys are the project names, each once, in order of first appearance, and each maps to the id of the last project with that name. |
| Todoist.ProjectPrompt | todoist-script.py:97-106 | The first line holding 0 .. len is accepted, and all earlier lines are rejected. 0 is the Inbox (None); n is the (n-1)-th id in dict order. |
| Todoist.SelectProject | todoist-script.py:97-106 | The retry loop returns what `ProjectPrompt` says. |
| Todoist.FetchFailureMeansInbox | todoist-script.py:75-80 | After a failed fetch, the only choice accepted is the Inbox. |
| Todoist.GetPriority | todoist-script.py:116-125 | The retry loop returns what `AskNumber(lines, 1, 4)` says, always a value in 1 .. 4. |
| Todoist.BatchShape | todoist-script.py:169-170 | Every call of a batch carries the task's priority, the chosen project and `due_lang="en"`. |
| Todoist.IssueBatch | todoist-script.py:169-170 | Every due date is sent exactly once, in order, whatever the calls' outcomes. |
| Todoist.PrintSummary | todoist-script.py:172-174 | The summary printed is the header followed by one numbered line per due date. |
| Todoist.SummaryLineReadsBack | todoist-script.py:174 | A one-digit summary line reads back as its number, the date, the separating space, and the hour and minute: every character of the line is fixed. |
| Todoist.SummaryReadsBack | todoist-script.py:172-174 | Line i + 1 of the summary is numbered i + 1 and shows due date i. |
| Todoist.ReadTask | todoist-script.py:159-164 | One task reads content, description and then a priority: the first later line holding 1 .. 4, every line before it rejected, as `get_priority` does. Reading stops with `Finished` exactly at `done`, and with `InputEnded` only when no line after the description holds 1 .. 4. |
| Todoist.ReadTaskRun | todoist-script.py:159-164 | The reading half of the loop body returns what `ReadTask` says. |
| Todoist.ContentLoopShape | todoist-script.py:158-174 | For the number of tasks read (`TasksRead`), the loop sends exactly five calls and prints exactly six lines per task. Every call carries a priority in 1 .. 4, the chosen project and "en". |
| Todoist.ContentLoopRun | todoist-script.py:158-174 | The content loop gives `ContentLoop`'s calls, printed lines and ending, which do not depend on the calls' outcomes. The clock is read afresh for each task. |
| Todoist.Run | todoist-script.py:155-174 | `main` does what `Session` says: projects, prompt, then the content loop. |
| Habitica.GenerateDueDates | habitica-script.py:75-81 | The append loop returns exactly the comprehension's list, element for element (`Schedule.DueDates`). |
| Habitica.CreateTodo | habitica-script.py:37-61 | A non-datetime raises ValueError and sends nothing. Otherwise the body is posted. An exception escapes iff it is neither an `HTTPError` nor a `RequestException`. |
| Habitica.CreateTodoPayload | habitica-script.py:40-46 | The body carries the text and note unchanged, type "todo", priority 2, and a `YYYY-MM-DD` date that decodes to the due day. Two due datetimes give the same body iff they fall on the same day: the time is dropped. |
| Habitica.PlannedLength | habitica-script.py:105-109 | The nested loops plan len(tasks) × len(due_dates) posts. |
| Habitica.PlannedOrder | habitica-script.py:105-109 | Post i × len(due_dates) + k is task i's body for date k (task-major order), with `task[1]` as the note, or "" for a one-element tuple. |
| Habitica.SwallowedErrorsKeepGoing | habitica-script.py:54-61 | With only HTTP and network errors, `main` posts the whole plan, one body per task and due date in task-major order, which is len(tasks) × 5 posts, and ends normally. |
| Habitica.NothingEscapes | habitica-script.py:54-61 | When every error a post raises is an HTTP or network error, `main` sees every post return normally and issues its whole plan. |
| Habitica.EscapeBound | habitica-script.py:48-61 | The first escaping exception cuts the plan at or before its position. It is an exception outside `requests`. |
| Habitica.EscapeStopsMain | habitica-script.py:102-109 | An exception outside `requests` at post j ends `main`: at most j + 1 posts are made. |
| Habitica.SampleTasksPlan | habitica-script.py:96-109 | The sample list is well formed, its third task gets note "", and it makes 15 posts when nothing escapes. |
| Habitica.IssueBatch | habitica-script.py:108-109 | The inner loop posts a prefix of the task's batch. It stops early only at an escaping exception. |
| Habitica.StopAtEscape | habitica-script.py:105-109 | When an exception escapes, the loops have posted exactly the plan up to and including that post. |
| Habitica.Run | habitica-script.py:102-109 | `main` does what `MainPosts` says: the posts made and the escaping exception, if any. |

## Left out

- OAuth, token refresh and `token.json` (`get_tasks_service`): file I/O and foreign libraries.
- dotenv loading and the credential globals: environment I/O.
- Logging and all `print` output other than the Todoist summary: observability only.
- The remote calls (`tasks().insert`, `tasklists().list`, `api.add_task`, `api.get_projects`, `requests.post`) are outcome oracles. What the services store is not modelled.
- `datetime.now()` is a parameter. In Todoist it is a function of the task's index, since the clock is read afresh for each task.
- `int()` parsing is not modelled. Each console line carries its parse result: an integer, or "not a number".
- Timezones: all datetimes are naive. `Z` is appended to the local wall-clock value, as the code does.
- Python's `OverflowError` past 9999-12-31 is a precondition (`CadenceFits`, `ClockInRange`) rather than an error path.
- `strftime("%Y")` is modelled as four zero-padded digits, which is how CPython's `isoformat()` writes years. Some C libraries do not pad years below 1000 in `strftime`.
- `str.lower()` is modelled for ASCII letters only. This is exact for the `done` test, because no other character lower-cases to d, o, n or e.
- `KeyboardInterrupt` is not modelled: a session is never interrupted from the keyboard.
- `EOFError` from `input()`: running out of console lines ends the session with `InputEnded`. In `google_task-script.py` the `except Exception` of `main` (lines 212-213) catches and logs it. In `todoist-script.py` nothing catches it and it ends the script with a traceback. The model records both as the `InputEnded` ending.
- `Calendar.FromOrdinal` finds the year by searching upward from an estimate. CPython's table-driven `_ord2ymd` is not transcribed; the model proves the property that defines it.
- The default arguments of `create_todo` (`note=""` in the Google and Habitica scripts, `description=""` and `project_id=None` in the Todoist script) are not modelled: every call site passes them explicitly, so no behaviour is lost.
- Habitica.Run: a task tuple with no text (where `task[0]` would raise `IndexError`) is excluded by a precondition. The sample list has none.
- Google `main`'s catch-all `except` branches for `IOError` and `Exception` are represented only by the session's ending value.
