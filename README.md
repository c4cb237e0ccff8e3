# Milo daily planner — a Dafny model of its core

Milo is a daily planner. It has an Express/Mongoose API that stores tasks and goals. It has two
React front ends (the `src/` and `frontend/src/` trees) with task lists, goal cards, a dashboard,
a month calendar, a sign-in page and a sidebar. This project models the parts of it that decide
values and state:

- **The schemas.** The Mongoose schemas of Task and Goal are datatypes. Each has a validity
  predicate and a creation function that fills defaults and then validates
  (`task_schema.dfy`, `goal_schema.dfy`).
- **The controllers.** The task and goal controllers are classes over a map from ObjectId to
  document, with one method per Express handler (`task_controller.dfy`, `goals_controller.dfy`).
  Each method states its status, its body and the new store, including the 404 and 500 paths.
  A database failure is a `dbFails` parameter.
- **The hooks.** The `useTasks` and `useGoals` hooks are classes whose `seq` field is the React
  state (`use_tasks.dfy`, `use_goals.dfy`). The `map`/`filter`/spread transforms they apply after
  an OK response are pure functions with "nothing else changes" contracts.
- **The forms and items.** The task form, goal form, task row and goal card are small state
  machines (`task_form.dfy`, `goal_form.dfy`, `task_item.dfy`, `goal_item.dfy`). A submit returns
  the payload it would hand to `onAdd`/`onEdit` instead of calling the callback.
- **The sign-in page.** Its validators include an exact model of the `/\S+@\S+\.\S+/` test
  (`login.dfy`).
- **The calendar.** The month calendar uses ECMAScript's `Date` day arithmetic for month lengths
  and weekdays, zero-padded `YYYY-MM-DD` keys (the full-date of section 5.6 of RFC 3339), and a
  grid built by two loops (`task_calendar.dfy`).
- **Aggregates and clamps.** The dashboard, both sidebars, the progress bar and the circular
  progress ring (`dashboard.dfy`, `sidebar.dfy`, `nav_sidebar.dfy`, `progress_bar.dfy`,
  `circular_progress.dfy`).
- **Shared modules.** `wrappers.dfy` (Option, Result), `js_text.dfy` (`trim`, `\s`, `String(n)`,
  `padStart`, ASCII case mapping), `js_array.dfy` (`filter` and its laws), `mongo_types.dfy`
  (ObjectId, Date, `required`/`enum`) and `types.dfy` (the client record shapes and object
  spread).

**Ownership and clamping, as the code has them.**

- The list handlers read every document: `Task.find()` and `Goals.find()` take no owner filter
  (backend/controllers/taskController.js:5, backend/controllers/goalsController.js:5).
- A new document is built from the request body alone (taskController.js:14,
  goalsController.js:14), so `userId`/`userID` comes only from the body.
- The routers register no month route (backend/routes/taskRoutes.js:13-18,
  backend/routes/goalRoutes.js:6-11).
- The client caps a progress update with `Math.min(value, goal.targetValue)` and sets no lower
  bound (src/hooks/useGoals.ts:97).

So the model states:

- every handler sees and may change every document;
- a body from the forms, which carries no owner, is rejected by the schema
  (`UseTasks.PostedBodyLacksOwner`, `UseGoals.PostedBodyLacksOwner`);
- the client shows negative progress as sent (`UseGoals.ProgressCappedAtTarget`).

**Numbers and time.**

- JavaScript numbers for goal values and percentages are `real`; counts are `nat`.
- Instants are integer milliseconds.
- Clock readings, generated ids, time-zone conversions and the token decoder are parameters.

## Model

| member | source | states |
|---|---|---|
| TaskSchema.FailingPaths | backend/models/Task.js:3-36 | A body passes validation exactly when it has a user id, a non-empty title and description, a category in {work, personal, health, learning} and a priority in {low, medium, high}. Only these five paths can fail, because `date` and `completed` have defaults. |
| TaskSchema.NewTask | backend/models/Task.js:27-35 | Creation succeeds iff no path fails, and the document is then valid. `_id` comes from the body or is generated; `date` defaults to the clock, `completed` to false; every other path comes from the body. A rejection names at least one path. |
| TaskSchema.OwnerRequired | backend/models/Task.js:4-8 | A body without a user id is always rejected, with `userId` among the failing paths. |
| TaskSchema.CategoryOutsideEnumRejected | backend/models/Task.js:17-21 | A category outside the enum is rejected, with `category` among the failing paths. |
| GoalSchema.FailingPaths | backend/models/Goals.js:3-46 | A body passes exactly when userID, targetValue and deadline are present and title, description and unit are non-empty. The category must be in {fitness, career, personal, learning, financial}. Only those seven paths can fail. |
| GoalSchema.NewGoal | backend/models/Goals.js:17-45 | Creation succeeds iff no path fails, and the document is then valid. `currentValue` defaults to 1 and `createdAt` to the clock. `progress` stays absent unless sent. Every required path comes from the body. |
| GoalSchema.NoBoundBetweenCurrentAndTarget | backend/models/Goals.js:17-25 | The schema accepts a goal whose current value exceeds its target (12 of 10), and one whose current value is negative. |
| TaskController.PatchStore | backend/controllers/taskController.js:25-27 | An update keeps the set of ids and keeps every document filed under its own id. Only the addressed document can change, and it becomes `ApplyPatch` of its old value. |
| TaskController.ApplyPatch | backend/controllers/taskController.js:25-27 | `findByIdAndUpdate` keeps `_id`; every other path takes the body's value when the body names it and keeps its old value otherwise. |
| TaskController.ToggleStore | backend/controllers/taskController.js:63-71 | The completion toggle negates `completed` of the addressed task only. Every other document is unchanged. |
| TaskController.ToggleInvolution | backend/controllers/taskController.js:60-84 | Toggling the same task twice restores the store. |
| TaskController.PatchAbsentIsIdentity | backend/controllers/taskController.js:25-30 | Updating an id that is not stored changes nothing. |
| TaskController.PatchCanBreakValidity | backend/controllers/taskController.js:25-27 | Updates run no validators: an update can give a valid task an empty title and a category outside the enum. |
| TaskController.TaskCollection.constructor | backend/models/Task.js:38-40 | The collection starts empty, with every document filed under its id. |
| TaskController.TaskCollection.Find | backend/controllers/taskController.js:5-6 | `find` returns every stored document matching the query exactly once and nothing else. |
| TaskController.TaskCollection.GetAllTask | backend/controllers/taskController.js:3-10 | Answers 200 with every stored task, whoever owns it. On a driver error it answers 500 "Error fetching tasks". |
| TaskController.TaskCollection.AddTask | backend/controllers/taskController.js:12-20 | Answers 201 with the validated document and inserts exactly that one record. A validation failure, a duplicate `_id` or a driver error answers 500 "Error adding task" and stores nothing. |
| TaskController.TaskCollection.UpdateTask | backend/controllers/taskController.js:22-35 | For an absent id it answers 404 and leaves the store unchanged. For a present id it overwrites the body's paths of that one document and answers 200 with the new document. A driver error answers 500 with the store unchanged. |
| TaskController.TaskCollection.DeleteTask | backend/controllers/taskController.js:37-48 | For an absent id it answers 404 and leaves the store unchanged. For a present id it removes exactly that document and answers 200. |
| TaskController.TaskCollection.GetTaskByDate | backend/controllers/taskController.js:50-58 | Lists exactly the tasks whose `date` equals the instant the parameter denotes. A parameter that does not cast, or a driver error, answers 500. |
| TaskController.TaskCollection.UpdateCompleteState | backend/controllers/taskController.js:60-84 | For an absent id it answers 404 before any write. Otherwise it negates `completed` of that task only and answers 200 with the new document. |
| GoalsController.PatchStore | backend/controllers/goalsController.js:25-27 | An update keeps the set of ids and the filing. Only the addressed goal can change, and it becomes `ApplyPatch` of its old value. |
| GoalsController.ApplyPatch | backend/controllers/goalsController.js:25-27 | `findByIdAndUpdate` keeps `_id`; every other path, `progress` included, takes the body's value when the body names it and keeps its old value otherwise. |
| GoalsController.ProgressStore | backend/controllers/goalsController.js:69-73 | A progress write sets `currentValue` of the addressed goal and changes nothing else. |
| GoalsController.ProgressStoredUnclamped | backend/controllers/goalsController.js:64-73 | Reading the goal back gives exactly the value sent, even above the target. Every other path of the goal is as it was. |
| GoalsController.ProgressLastWriteWins | backend/controllers/goalsController.js:69-73 | After two progress writes to the same goal, the second value is the one stored. |
| GoalsController.GoalCollection.constructor | backend/models/Goals.js:48-50 | The collection starts empty. |
| GoalsController.GoalCollection.GetAllGoals | backend/controllers/goalsController.js:3-10 | Answers 200 with every stored goal exactly once, with no owner filter. On a driver error it answers 500 "Error fetching goals". |
| GoalsController.GoalCollection.AddGoals | backend/controllers/goalsController.js:12-20 | Answers 201 with the validated document and inserts exactly that one record. Any failure answers 500 "Error adding goal" and stores nothing. |
| GoalsController.GoalCollection.UpdateGoals | backend/controllers/goalsController.js:22-35 | For an absent id it answers 404 and leaves the store unchanged. Otherwise it overwrites the body's paths of that goal only and answers 200 with the new document. |
| GoalsController.GoalCollection.DeleteGoals | backend/controllers/goalsController.js:37-49 | For an absent id it answers 404 and leaves the store unchanged. Otherwise it removes exactly that goal and answers 200. |
| GoalsController.GoalCollection.UpdateProgress | backend/controllers/goalsController.js:61-86 | For an absent id it answers 404 before any write. Otherwise it stores the value unclamped in that goal only and answers 200 with the new document. |
| Types.MergeTask | frontend/src/types/index.ts:1-10 | `{ ...t, ...u }`: every field present in the `Partial<Task>` overrides, every absent one keeps the task's value. |
| Types.MergeGoal | frontend/src/types/index.ts:12-22 | `{ ...g, ...u }`: every field present in the `Partial<Goal>` overrides, every absent one keeps the goal's value. |
| Types.MergeTaskIdempotent | frontend/src/types/index.ts:1-10 | Spreading the same `Partial<Task>` over a task twice is the same as spreading it once. |
| Types.MergeGoalIdempotent | frontend/src/types/index.ts:12-22 | Spreading the same `Partial<Goal>` over a goal twice is the same as spreading it once. |
| UseTasks.MergeById | src/hooks/useTasks.ts:55-57 | Same length. Tasks with another id are unchanged. Tasks with the id become the old task overridden by the local `updates`, not by the server's reply. |
| UseTasks.RemoveById | src/hooks/useTasks.ts:82 | Exactly the tasks with another id remain. |
| UseTasks.ToggleById | src/hooks/useTasks.ts:106-110 | Same length. Only the tasks with the id have `completed` flipped; all others are unchanged. |
| UseTasks.OnDate | src/hooks/useTasks.ts:118-121 | Exactly the tasks whose date string equals the argument. |
| UseTasks.OnDateKeepsOrder | src/hooks/useTasks.ts:118-121 | The tasks of a date keep list order: those of a concatenation are those of each part in turn, and one task is kept iff its date string matches. |
| UseTasks.ToggleInvolution | src/hooks/useTasks.ts:106-110 | Toggling the same id twice restores the list. |
| UseTasks.MergeIdempotent | src/hooks/useTasks.ts:55-57 | Merging the same updates twice equals merging them once, even when the updates change `_id`. |
| UseTasks.RemoveKeepsOrder | src/hooks/useTasks.ts:82 | Deleting from a concatenation deletes from each part, so order is kept. Deleting an absent id is the identity. Kept and removed tasks together are the list. |
| UseTasks.PostedBodyLacksOwner | src/hooks/useTasks.ts:9-19 | The body `addTask` posts has no `userId`, so the task schema rejects every such body. |
| UseTasks.TasksHook.constructor | src/hooks/useTasks.ts:7 | The list starts empty. |
| UseTasks.TasksHook.AddTask | src/hooks/useTasks.ts:9-35 | On OK, the server's task is appended and all earlier tasks keep their order. On a non-OK response the list is unchanged and nothing is returned. |
| UseTasks.TasksHook.UpdateTask | src/hooks/useTasks.ts:37-64 | On OK the list becomes `MergeById` of the old list. Otherwise it is unchanged. |
| UseTasks.TasksHook.DeleteTask | src/hooks/useTasks.ts:66-88 | On OK the list becomes `RemoveById` of the old list. Otherwise it is unchanged. |
| UseTasks.TasksHook.ToggleTask | src/hooks/useTasks.ts:90-116 | On OK the list becomes `ToggleById` of the old list. Otherwise it is unchanged. |
| UseTasks.TasksHook.GetTasksForDate | src/hooks/useTasks.ts:118-123 | Returns `OnDate` of the list (the tasks on that date string, in list order by `UseTasks.OnDateKeepsOrder`) without changing the list. |
| UseTasks.TasksHook.FetchTasks | src/hooks/useTasks.ts:125-145 | On OK the fetched list replaces the whole list. Otherwise it is unchanged. |
| UseGoals.MergeById | src/hooks/useGoals.ts:48-50 | Same length. Goals with another id are unchanged. Goals with the id become the old goal overridden by `updates`. |
| UseGoals.RemoveById | src/hooks/useGoals.ts:73 | Exactly the goals with another id remain. |
| UseGoals.RemoveKeepsOrder | src/hooks/useGoals.ts:73 | Removal keeps order: removing from a concatenation removes from each part in turn, and one goal stays iff its id differs. |
| UseGoals.ProgressById | src/hooks/useGoals.ts:96-98 | Same length. Only the goals with the id change, and only their `currentValue`, which becomes `min(value, targetValue)`. |
| UseGoals.ProgressCappedAtTarget | src/hooks/useGoals.ts:96-98 | After a progress update the goal shows at most its target. A value within the target is shown as sent. A negative value is shown negative: there is no lower bound. |
| UseGoals.ProgressIdempotent | src/hooks/useGoals.ts:96-98 | Sending the same progress twice shows the same as sending it once. |
| UseGoals.MergeIdempotent | src/hooks/useGoals.ts:48-50 | Merging the same updates twice equals merging them once. |
| UseGoals.RemoveShrinks | src/hooks/useGoals.ts:73 | Deleting leaves the list unchanged iff no goal has the id. Otherwise the list gets shorter. |
| UseGoals.ProgressViewsDiverge | src/hooks/useGoals.ts:87-98 | For a value above the target, the server stores the value while the browser shows the target. |
| UseGoals.PostedBodyLacksOwner | src/hooks/useGoals.ts:9-18 | The body `addGoal` posts has no `userID`, so the goal schema rejects every such body. |
| UseGoals.GoalsHook.constructor | src/hooks/useGoals.ts:7 | The list starts empty. |
| UseGoals.GoalsHook.AddGoal | src/hooks/useGoals.ts:9-29 | On OK, the server's goal is appended after the unchanged earlier goals. Otherwise the list is unchanged. |
| UseGoals.GoalsHook.UpdateGoal | src/hooks/useGoals.ts:31-56 | On OK the list becomes `MergeById` of the old list. Otherwise it is unchanged. |
| UseGoals.GoalsHook.DeleteGoal | src/hooks/useGoals.ts:58-77 | On OK the list becomes `RemoveById` of the old list. Otherwise it is unchanged. |
| UseGoals.GoalsHook.UpdateGoalProgress | src/hooks/useGoals.ts:79-104 | On OK the list becomes `ProgressById` of the old list. Otherwise it is unchanged. |
| UseGoals.GoalsHook.FetchGoals | src/hooks/useGoals.ts:106-126 | On OK the fetched list replaces the whole list. Otherwise it is unchanged. |
| Login.MessageOr | src/components/Auth/Login.tsx:112 | The server's message when it is a non-empty string, the fallback text otherwise. |
| Login.DotInRun | src/components/Auth/Login.tsx:81 | Scanning the non-space run after an `@` finds a dot followed by a non-space, at least two places after the `@`, iff one exists. |
| Login.AtFrom | src/components/Auth/Login.tsx:81 | Scanning from a position finds an `@` that starts a match of `\S+@\S+\.\S+` iff such a match exists. |
| Login.HasEmailShape | src/components/Auth/Login.tsx:81 | The executable test is true exactly when the regular expression matches somewhere in the string. |
| Login.EmailError | src/components/Auth/Login.tsx:79-83 | A blank email gives "Email is required". A non-blank email with no match gives "Please enter a valid email address". There is no error iff the pattern matches. |
| Login.PasswordError | src/components/Auth/Login.tsx:85-89 | An empty password gives "Password is required". One of 1 to 5 characters gives "Password must be at least 6 characters". There is no error iff it has at least 6 characters. |
| Login.PatternIsNotBlank | src/components/Auth/Login.tsx:79-82 | A string the pattern matches is never blank, so the two email messages exclude each other. |
| Login.EmailExamples | src/components/Auth/Login.tsx:79-83 | "a@b.c" passes. "  " is required. "a@b" and "a@.c" are invalid. |
| Login.LoginForm.constructor | src/components/Auth/Login.tsx:32-41 | The form starts with empty fields, no errors, not loading, no toast and no token. |
| Login.LoginForm.ValidateForm | src/components/Auth/Login.tsx:76-93 | The shown errors are exactly the email and password messages, with no general message. The result is true iff neither message exists. Nothing else changes. |
| Login.LoginForm.HandleInputChange | src/components/Auth/Login.tsx:45-54 | Sets only the named field. Blanks only that field's message, and only when one is showing. |
| Login.LoginForm.HandleLogin | src/components/Auth/Login.tsx:95-120 | No request unless the form validates. Otherwise the reply decides: store the token, show the server's message (or "Login failed"), or show "Something went wrong". `loading` is false at the end. |
| Login.LoginForm.HandleForgetPassword | src/components/Auth/Login.tsx:123-149 | With an empty (untrimmed) email it shows only "Please enter email" and sends nothing. Otherwise it clears the errors and the reply decides: the toast, the server's message, or the fallback. |
| TaskCalendar.MonthLength | src/components/Calendar/TaskCalendar.tsx:37-39 | A Gregorian month has 28 to 31 days. |
| TaskCalendar.MonthTable | src/components/Calendar/TaskCalendar.tsx:37-39 | The days before each month, summed from the month lengths, equal ECMAScript's cumulative month table (plus one from March in a leap year). |
| TaskCalendar.YearLength | src/components/Calendar/TaskCalendar.tsx:37-39 | A year has 366 days iff it is a leap year. ECMAScript's DayFromYear advances by that length. |
| TaskCalendar.MonthRollover | src/components/Calendar/TaskCalendar.tsx:38 | `new Date(y, m + 1, 0)` is the last day of month `m`, carrying months past December into the next year. |
| TaskCalendar.WeekDay | src/components/Calendar/TaskCalendar.tsx:42 | `getDay` lies in 0..6. |
| TaskCalendar.GetDaysInMonth | src/components/Calendar/TaskCalendar.tsx:37-39 | The result is the length of the (normalised) month, between 28 and 31, with the two-digit-year rule of `Date`. |
| TaskCalendar.MondayIndex | src/components/Calendar/TaskCalendar.tsx:43 | Sunday (0) maps to 6 and every other weekday d to d-1, which is `(d + 6) % 7`, in 0..6. |
| TaskCalendar.GetFirstDayOfMonth | src/components/Calendar/TaskCalendar.tsx:41-44 | The Monday-based weekday of the 1st lies in 0..6. |
| TaskCalendar.WeekShift | src/components/Calendar/TaskCalendar.tsx:41-44 | Counted from Monday, the weekday of a day n days later is n steps further, modulo 7. |
| TaskCalendar.FirstDayAdvances | src/components/Calendar/TaskCalendar.tsx:37-44 | The next month starts where this month's days leave off in the week. |
| TaskCalendar.EpochWeekday | src/components/Calendar/TaskCalendar.tsx:41-44 | 1 January 1970 is a Thursday: Monday-based weekday 3. |
| TaskCalendar.NewYear2025Weekday | src/components/Calendar/TaskCalendar.tsx:41-44 | 1 January 2025 is a Wednesday: Monday-based weekday 2. |
| TaskCalendar.FebruaryLength | src/components/Calendar/TaskCalendar.tsx:37-39 | February has 29 days exactly in Gregorian leap years, for years outside 0..99. |
| TaskCalendar.TwoDigitYear | src/components/Calendar/TaskCalendar.tsx:37-44 | A year from 0 to 99 is read as 1900 to 1999 by both helpers. |
| TaskCalendar.MonthsCarry | src/components/Calendar/TaskCalendar.tsx:37-39 | Month 12 of 2025 is January 2026, with 31 days. Month -11 is February 2024, with 29 days. |
| TaskCalendar.TwoDigitsValue | src/components/Calendar/TaskCalendar.tsx:57 | `padStart(2, '0')` of a number below 100 is two digits denoting it. |
| TaskCalendar.KeyLayout | src/components/Calendar/TaskCalendar.tsx:57 | In `y-mm-dd` with parts of 4, 2 and 2 characters, the dashes sit at positions 4 and 7 and the parts can be read back. |
| TaskCalendar.DateKeyIsFullDate | src/components/Calendar/TaskCalendar.tsx:57 | For a four-digit year and a day of the month, the key is a 10-character RFC 3339 full-date. It reads back as the year, the month plus one and the day. |
| TaskCalendar.DateKeyInjective | src/components/Calendar/TaskCalendar.tsx:110 | Two days of a four-digit year get the same key iff they are the same day. |
| TaskCalendar.TasksOnKey | src/components/Calendar/TaskCalendar.tsx:109-115 | Exactly the tasks whose ISO day equals the key. |
| TaskCalendar.TasksOnKeyKeepsOrder | src/components/Calendar/TaskCalendar.tsx:109-115 | A day's tasks keep list order: those of a concatenation are those of each part in turn, and one task is kept iff its ISO day is the key. |
| TaskCalendar.DayPreview | src/components/Calendar/TaskCalendar.tsx:167-186 | A cell shows the first `min(3, n)` of the day's `n` tasks, as a prefix. It shows "+k more" iff `n > 3`, with `k = n - 3`. |
| TaskCalendar.DayCells | src/components/Calendar/TaskCalendar.tsx:140-141 | One cell per day of the month. |
| TaskCalendar.CellsAt | src/components/Calendar/TaskCalendar.tsx:140-141 | The cell pushed for day d sits at position d-1 of the days pushed. |
| TaskCalendar.DayCellAt | src/components/Calendar/TaskCalendar.tsx:140-141 | The cell at position d-1 is the cell of day d, for every d from 1 to n. |
| TaskCalendar.GridStep | src/components/Calendar/TaskCalendar.tsx:140-141 | Appending day n's cell, built from the tasks whose ISO day is day n's key, turns the grid up to day n-1 into the grid up to day n. |
| TaskCalendar.GridLayout | src/components/Calendar/TaskCalendar.tsx:129-141 | The grid is `first` blank cells, then day d at position first+d-1, for `first + n` cells in all. |
| TaskCalendar.Calendar.constructor | src/components/Calendar/TaskCalendar.tsx:14-24 | The page starts with no tasks, an empty form (category "work", priority "medium"), no date and a closed modal, in the clock's month of 2025. |
| TaskCalendar.Calendar.HandleDateClick | src/components/Calendar/TaskCalendar.tsx:56-60 | Selects the day's key and opens the modal. Nothing else changes. |
| TaskCalendar.Calendar.HandleAddTask | src/components/Calendar/TaskCalendar.tsx:62-81 | Sends a task iff the trimmed title is non-empty and a date is selected. The task is the trimmed title and description, `completed` false, the category, the priority and the date. The form then resets to "work"/"medium", the modal closes, the date clears and a refetch is requested. Otherwise nothing changes. |
| TaskCalendar.Calendar.GetTasksForDate | src/components/Calendar/TaskCalendar.tsx:109-115 | Returns `TasksOnKey` of the loaded tasks for that day's key (in list order by `TaskCalendar.TasksOnKeyKeepsOrder`). |
| TaskCalendar.Calendar.HandleDeleteTask | src/components/Calendar/TaskCalendar.tsx:119-122 | Reports the id and removes exactly the tasks with that id locally. Nothing else changes. |
| TaskCalendar.Calendar.HandleMonthChange | src/components/Calendar/TaskCalendar.tsx:124-127 | Shows the chosen month and closes the dropdown. Nothing else changes. |
| TaskCalendar.Calendar.FetchMonthTasks | src/components/Calendar/TaskCalendar.tsx:84-107 | On OK the fetched list replaces the tasks. Otherwise nothing changes. |
| TaskCalendar.Calendar.RenderMonth | src/components/Calendar/TaskCalendar.tsx:50-51 | The grid rendered for the month shown is its first weekday's count of blank cells, then one cell per day of its length. |
| TaskCalendar.Calendar.RenderCalendarDays | src/components/Calendar/TaskCalendar.tsx:129-141 | The two loops build `firstDay` blank cells, then one cell per day 1..daysInMonth in order, each previewing that day's tasks. |
| TaskForm.SubmitPayload | src/components/Tasks/TaskForm.tsx:17-28 | Nothing is sent iff the title is blank. Otherwise the payload is the new task with `Trim(title)`, `Trim(description)`, `completed` false, the chosen category and priority and the selected date; its title is non-empty and starts and ends with a non-space. |
| TaskForm.ResubmitIsStable | src/components/Tasks/TaskForm.tsx:19-28 | Submitting a payload's own fields again yields the same payload. |
| TaskForm.TaskFormState.constructor | src/components/Tasks/TaskForm.tsx:11-15 | The initial state is the post-submit state: closed, empty, "personal", "medium". |
| TaskForm.TaskFormState.SetOpen | src/components/Tasks/TaskForm.tsx:40-54 | The open and close buttons change only `isOpen`. |
| TaskForm.TaskFormState.EditFields | src/components/Tasks/TaskForm.tsx:70-116 | Each input sets its own field only. |
| TaskForm.TaskFormState.HandleSubmit | src/components/Tasks/TaskForm.tsx:17-35 | Sends `SubmitPayload` of the current fields. With a blank title nothing changes; otherwise the form is back in its initial state. |
| GoalForm.SubmitPayload | src/components/Goals/GoalForm.tsx:18-30 | Nothing is sent iff the title or unit is blank or there is no deadline. Otherwise the payload is the new goal with `Trim(title)`, `Trim(description)`, `Trim(unit)`, `currentValue` 0 and the target, deadline and category as entered; title and unit are non-empty and start and end with a non-space. |
| GoalForm.TargetNotChecked | src/components/Goals/GoalForm.tsx:20-30 | Any target passes the guard, including zero or negative, despite the input's `min="1"`. Such a goal is sent already at its target. |
| GoalForm.ResubmitIsStable | src/components/Goals/GoalForm.tsx:20-30 | Submitting a payload's own fields again yields the same payload. |
| GoalForm.GoalFormState.constructor | src/components/Goals/GoalForm.tsx:10-16 | The initial state is the post-submit state: closed, empty fields, target 1, "personal". |
| GoalForm.GoalFormState.SetOpen | src/components/Goals/GoalForm.tsx:44-58 | The open and close buttons change only `isOpen`. |
| GoalForm.GoalFormState.SetTargetValue | src/components/Goals/GoalForm.tsx:104-105 | The target input stores the number as typed, with no bound, and changes nothing else. |
| GoalForm.GoalFormState.EditFields | src/components/Goals/GoalForm.tsx:74-154 | Each text input and the select set their own field only. |
| GoalForm.GoalFormState.Reset | src/components/Goals/GoalForm.tsx:32-38 | The six setters and the close restore the initial state. |
| GoalForm.GoalFormState.HandleSubmit | src/components/Goals/GoalForm.tsx:18-39 | Sends `SubmitPayload` of the current fields. When the guard fails nothing changes; otherwise the form is back in its initial state. |
| TaskItem.EditPatch | frontend/src/components/Tasks/TaskItem.tsx:18 | The edit hands over a title and a description and no other field. |
| TaskItem.EditKeepsOtherFields | frontend/src/components/Tasks/TaskItem.tsx:17-18 | Merging an edit replaces title and description and keeps id, completion, category, priority, date and creation time. |
| TaskItem.SaveUnchangedIsIdentity | frontend/src/components/Tasks/TaskItem.tsx:13-20 | Saving untouched buffers leaves the task, and a list of that task, unchanged. |
| TaskItem.TaskItemState.constructor | frontend/src/components/Tasks/TaskItem.tsx:13-15 | The row starts outside edit mode, with buffers equal to the task's title and description. |
| TaskItem.TaskItemState.StartEditing | frontend/src/components/Tasks/TaskItem.tsx:113-116 | The edit button enters edit mode, which hides the actions, and keeps the buffers. |
| TaskItem.TaskItemState.EditBuffers | frontend/src/components/Tasks/TaskItem.tsx:64-70 | Each input sets its own buffer only. |
| TaskItem.TaskItemState.HandleSave | frontend/src/components/Tasks/TaskItem.tsx:17-20 | Hands the task id and `{title, description}` from the buffers to `onEdit`, then leaves edit mode. |
| TaskItem.TaskItemState.HandleCancel | frontend/src/components/Tasks/TaskItem.tsx:22-26 | Restores the buffers to the task's values and leaves edit mode. |
| TaskItem.TaskItemState.Toggle | frontend/src/components/Tasks/TaskItem.tsx:48 | Hands the task id to `onToggle` and changes no local state. |
| TaskItem.TaskItemState.Delete | frontend/src/components/Tasks/TaskItem.tsx:123-124 | Hands the task id to `onDelete` and changes no local state. |
| GoalItem.Progress | src/components/Goals/GoalItem.tsx:18 | Progress times target equals current times 100. There is no number for a zero target. |
| GoalItem.CompletedIffFull | src/components/Goals/GoalItem.tsx:18-19 | For a positive target, the "Completed" badge shows iff progress is at least 100. |
| GoalItem.DaysLeft | src/components/Goals/GoalItem.tsx:20 | Never negative. 0 iff the deadline has passed. Otherwise the smallest whole number of days covering the time left. |
| GoalItem.DueLabel | src/components/Goals/GoalItem.tsx:57 | "Due today" exactly when no days are left; otherwise "n days left". |
| GoalItem.UpTo | src/components/Goals/GoalItem.tsx:53 | The prefix before the first occurrence of a character (the second piece of `split` for the label). |
| GoalItem.CategoryLabel | src/components/Goals/GoalItem.tsx:53 | An empty category throws. Otherwise the label is the upper-cased first character, then the lower-cased text up to that character's next occurrence. |
| GoalItem.LabelCapitalises | src/components/Goals/GoalItem.tsx:53 | A lower-case word whose initial does not recur is shown capitalised in full. |
| GoalItem.CategoryLabels | src/components/Goals/GoalItem.tsx:53 | Each of the five goal categories is shown as its capitalised word. |
| GoalItem.RepeatedInitialTruncates | src/components/Goals/GoalItem.tsx:53 | A category whose initial recurs is cut short: "success" is shown as "Succe". |
| GoalItem.GoalItemState.constructor | src/components/Goals/GoalItem.tsx:15-16 | The card starts outside edit mode, with the input holding the goal's current value. |
| GoalItem.GoalItemState.ToggleEditing | src/components/Goals/GoalItem.tsx:66 | The edit button flips edit mode and keeps the input. |
| GoalItem.GoalItemState.SetProgressValue | src/components/Goals/GoalItem.tsx:96 | The input stores the number as typed, ignoring its `min`/`max`. |
| GoalItem.GoalItemState.HandleProgressUpdate | src/components/Goals/GoalItem.tsx:30-32 | Hands the goal id and the unmodified input value to `onUpdateProgress`. |
| GoalItem.GoalItemState.Delete | src/components/Goals/GoalItem.tsx:72 | Hands the goal id to `onDelete`. |
| Dashboard.TodayTasks | frontend/src/components/Dashboard/Dashboard.tsx:15 | Exactly the tasks whose local day is today. |
| Dashboard.CompletedTasks | frontend/src/components/Dashboard/Dashboard.tsx:16 | Exactly the completed tasks among today's, so no more of them than today's tasks. |
| Dashboard.CompletionRate | frontend/src/components/Dashboard/Dashboard.tsx:17 | 0 for an empty list; always within [0, 100]. |
| Dashboard.CompletionRateFull | frontend/src/components/Dashboard/Dashboard.tsx:17 | The rate is 100 iff there are tasks and all of them are done. |
| Dashboard.CompletionRateZero | frontend/src/components/Dashboard/Dashboard.tsx:17 | The rate is 0 iff no task is done. |
| Dashboard.WeekTasks | frontend/src/components/Dashboard/Dashboard.tsx:26-33 | Exactly the tasks inside the week window. |
| Dashboard.WeeklyRateEmptyWeek | frontend/src/components/Dashboard/Dashboard.tsx:35-37 | The weekly rate is 0 when no task falls in the week, and always lies in [0, 100]. |
| Dashboard.ActiveGoals | frontend/src/components/Dashboard/Dashboard.tsx:19 | Only goals below their target. |
| Dashboard.CompletedGoals | frontend/src/components/Dashboard/Dashboard.tsx:20 | Only goals at or above their target. |
| Dashboard.GoalsPartition | frontend/src/components/Dashboard/Dashboard.tsx:19-20 | Active and completed goals partition the goals, as multisets. The two counts sum to the number of goals, and each goal is in exactly one list. |
| Dashboard.ProgressSum | frontend/src/components/Dashboard/Dashboard.tsx:23 | The `reduce` sum has no number exactly when some target is 0. |
| Dashboard.AverageGoalProgress | frontend/src/components/Dashboard/Dashboard.tsx:22-24 | 0 without goals. It has no number exactly when some target is 0. |
| Dashboard.ProgressSumBounds | frontend/src/components/Dashboard/Dashboard.tsx:22-24 | With every goal in [0, target] and positive targets, the sum lies between 0 and 100 per goal. |
| Dashboard.AverageWithinRange | frontend/src/components/Dashboard/Dashboard.tsx:22-24 | Then the average lies in [0, 100]. |
| Dashboard.MonthTaskCount | frontend/src/components/Dashboard/Dashboard.tsx:68 | The number of tasks whose date starts with this month's prefix, at most the number of tasks. |
| Dashboard.RecentGoals | frontend/src/components/Dashboard/Dashboard.tsx:100 | The first min(3, n) goals, in order. |
| Dashboard.EmptyHintIffNoRecentGoals | frontend/src/components/Dashboard/Dashboard.tsx:100-115 | "No goals yet" shows exactly when the recent-goals list is empty. |
| Sidebar.Highlights | src/components/Navigation/Sidebar.tsx:63-71 | A menu button is active iff its id is the current view. |
| Sidebar.ExactlyOneHighlighted | src/components/Navigation/Sidebar.tsx:16-21 | The menu ids (dashboard, tasks, goals, calendar) are distinct, so a current view that is one of them highlights exactly one button. |
| Sidebar.CategoryCount | src/components/Navigation/Sidebar.tsx:24-27 | The count is at most the number of tasks, and 0 iff no task has that category. |
| Sidebar.Categories | src/components/Navigation/Sidebar.tsx:23-28 | Four rows, Personal, Work, Health and Learning in that order, each with its category's count. |
| Sidebar.CountsCoverTasks | src/components/Navigation/Sidebar.tsx:23-28 | When every task has a schema category, the four counts sum to the number of tasks. |
| Sidebar.CompletedGoalCount | src/components/Navigation/Sidebar.tsx:30 | The number of goals at or above target: the dashboard's completed list, at most the number of goals. |
| Sidebar.CompletedAndActive | src/components/Navigation/Sidebar.tsx:30 | Completed and active goals together count every goal. |
| NavSidebar.UserOf | frontend/src/components/Navigation/Sidebar.tsx:34-36 | Without a truthy token the user is all nulls. With one, the sidebar fails to render iff `jwtDecode` throws; otherwise the user is the decoded claims as they are, a missing claim staying `undefined`. |
| NavSidebar.ClaimlessTokenLooksAnonymous | frontend/src/components/Navigation/Sidebar.tsx:34-36 | The cast checks no claim: a decodable token without id, email and name shows the same user as no token. |
| NavSidebar.NavSidebarState.constructor | frontend/src/components/Navigation/Sidebar.tsx:18 | The dropdown starts closed. |
| NavSidebar.NavSidebarState.HandleOption | frontend/src/components/Navigation/Sidebar.tsx:38-40 | Negates `open` and keeps the token. |
| NavSidebar.NavSidebarState.HandleOptionTwice | frontend/src/components/Navigation/Sidebar.tsx:38-40 | Two clicks restore `open`. |
| NavSidebar.NavSidebarState.HandleLogout | frontend/src/components/Navigation/Sidebar.tsx:42-45 | Removes the token, so the user is anonymous, and goes to "/login". |
| ProgressBar.Clamp | frontend/src/components/Progress/ProgressBar.tsx:31 | The percentage is in [0, 100]. It equals the progress when that is in range, 0 below and 100 above. |
| ProgressBar.ClampIdempotent | frontend/src/components/Progress/ProgressBar.tsx:31 | Clamping twice is clamping once. |
| ProgressBar.ClampMonotone | frontend/src/components/Progress/ProgressBar.tsx:31 | More progress never gives a smaller percentage. |
| CircularProgress.Radius | src/components/Progress/CircularProgress.tsx:20 | Twice the radius plus the stroke is the size. |
| CircularProgress.DefaultRadius | src/components/Progress/CircularProgress.tsx:14-20 | With size 120 and stroke 8 the radius is 56. |
| CircularProgress.Circumference | src/components/Progress/CircularProgress.tsx:21 | Positive for a positive radius, and 0 iff the radius is 0. |
| CircularProgress.DashOffset | src/components/Progress/CircularProgress.tsx:22-24 | Lies in [0, circumference]. It is the whole circumference at 0% and 0 at 100%. |
| CircularProgress.OffsetShrinks | src/components/Progress/CircularProgress.tsx:22-24 | More progress leaves less of the ring undrawn. |

## Left out

- HTTP and `fetch` plumbing are not modelled: headers, JSON parsing, the `Authorization` token header, `console` logging, React rendering, JSX and CSS classes. A hook mutation is "OK response ⇒ transform, otherwise unchanged", with the response as a parameter.
- Mongoose internals (`find`, `save`, `findByIdAndUpdate`, `findByIdAndDelete`) are abstract. The collection is a map and a driver error is a `dbFails` parameter. An id that does not cast to an ObjectId makes Mongoose throw, which answers 500. The model does not single such ids out: ObjectId is any string, and one that is not stored answers 404.
- TaskController.TaskCollection.UpdateCompleteState, GoalsController.GoalCollection.UpdateProgress, TaskController.ToggleInvolution, GoalsController.ProgressLastWriteWins: each handler is one atomic step over the store. Concurrent requests are not modelled. Between `findById` and `findByIdAndUpdate` another request may change or delete the document, so the handlers' second 404 branch (backend/controllers/taskController.js:73-75, backend/controllers/goalsController.js:75-77) cannot be reached in the model. The involution and last-write-wins lemmas hold only for requests that do not overlap.
- TaskController.TaskCollection.UpdateTask, GoalsController.GoalCollection.UpdateGoals, GoalsController.GoalCollection.UpdateProgress: patch and progress values arrive already typed. A body value that Mongoose fails to cast makes the update throw and answer 500; the model has no such input.
- `getGoalsByDate` (backend/controllers/goalsController.js:51-59) is not modelled. It queries a `date` path the goal schema does not declare, so its result depends on Mongoose's strict-query setting.
- The Express routes (backend/routes/) are not part of this model. They register no `/tasks/month` route, although the calendar requests one. The calendar's month fetch is modelled only as "OK ⇒ replace the tasks".
- `backend/config/db.js`, both `App.tsx` files, `LandingPage.tsx`, `AuthContext.tsx`, `Toast.tsx`, `StatsCard.tsx` and the tailwind configuration are not part of this model. They hold connection I/O, routing, timers and styling.
- Time zones and locales are parameters, not computed:
  - `toLocaleDateString` (Dashboard.TodayTasks' `localeDay`);
  - the week window (Dashboard.WeekTasks' `inWeek`);
  - `toISOString().slice(0, 10)` (TaskCalendar.TasksOnKey's `isoDay`);
  - the month prefix (Dashboard.MonthTaskCount);
  - the clock (GoalItem.DaysLeft's `now`, the schemas' `now`, the calendar's starting month).
- The weekday names of the calendar and its "today" highlight are not modelled. They are locale- and clock-dependent presentation.
- Floating point is not modelled: JavaScript numbers are `real`. `toFixed`, NaN and Infinity are not represented, and `Math.PI` is a positive parameter.
- GoalItem.Progress: for a zero target JavaScript yields Infinity or NaN; the model yields `None` and states nothing further about that case.
- Dashboard.AverageGoalProgress: likewise `None` when some target is 0, where JavaScript averages Infinity or NaN. The left-to-right `reduce` order is irrelevant over reals.
- NavSidebar.UserOf: the token decoder (`jwtDecode`) is a parameter. Its throw on a malformed token is its `None` result, and a missing claim is `None` like `null`; `undefined` and `null` are not told apart. Cookies are reduced to a `token` field, and navigation to a returned path.
- Only ASCII letters are case-mapped; other characters pass through `toLocaleUpperCase`/`toLocaleLowerCase` unchanged. String lengths count code points, not UTF-16 units.
- The signed-in sidebar's menu and category rows are the same expressions as the other sidebar's (frontend/src/components/Navigation/Sidebar.tsx:19-31). They are modelled once, by Sidebar.MenuItems, Sidebar.Categories and Sidebar.CountsCoverTasks.
- A progress body without `currentValue` is not modelled: `findByIdAndUpdate` would then write nothing. The model always stores the value sent.
- Password visibility, the sign-up toggle and the dashboard link of the sign-in page are not modelled. They are presentation or navigation.
