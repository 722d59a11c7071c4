# TodoApp in Dafny

A model of the logic of TodoApp, a todo list with a calendar and a pomodoro timer.

The client is a set of React components:

- a todo page with filters, a sort, drag-and-drop and tags;
- a per-todo pomodoro countdown;
- an events-and-todos calendar;
- a dashboard calendar;
- a list of recent tasks;
- a pomodoro usage report.

The server is an Express/Mongoose back end with todo and event documents. With the rendering, `fetch` and database plumbing removed, what is left is list, record and integer logic, and that is what is modelled here.

| file | module | models |
|---|---|---|
| `base.dfy` | `Base` | `Option` (for `undefined`/`null`), ids, timestamps, and `filter`, `map`-replace, `find`, `splice`, `slice` and `Array.from(new Set(…))` |
| `text.dfy` | `Text` | `split(',')`/`join`, `trim` (ECMAScript white space), `String(n)`, `padStart`, and a string order standing in for `localeCompare` |
| `pomodoro_timer.dfy` | `PomodoroTimer` | `TodoPomodoroTimer` |
| `todo_list.dfy` | `TodoList` | `TodoList` and the edit handler of its `TodoItem` |
| `event_calendar.dfy` | `EventCalendar` | `EventCalendar` |
| `shared_calendar.dfy` | `SharedCalendar` | `SharedCalendar` (`Calendar.tsx`) |
| `dashboard.dfy` | `Dashboard` | `Dashboard` (`Dashbord.tsx`) |
| `pomodoro_report.dfy` | `PomodoroReport` | `PomodoroReport` |
| `todo_schema.dfy`, `event_schema.dfy` | `TodoSchema`, `EventSchema` | the two Mongoose schemas |
| `todo_routes.dfy`, `event_routes.dfy` | `TodoRoutes`, `EventRoutes` | the two Express routers, over a `map<Id, Doc>` store |

The pure parts are datatypes and functions: the filter/sort pipeline, tag parsing, the calendar merges, the record rules of the routes, and the report.

The stateful parts are classes whose fields are the component's state variables or the server's store:

- state-changing methods state the new state in terms of those functions;
- server answers, failures and fresh ids are method parameters;
- the timer class also keeps `log`, the sequence of `onTimerUpdate` calls made so far.

Behaviours of the code worth knowing:

- The timer stops at every phase boundary. The transition sets `isActive` to false, so a finished work phase does not run on into the break.
- The timer never counts pomodoros. `pomodorosCompleted` changes only through the timer PATCH route.
- The POST route for todos ignores `memo`, `tags`, `priority` and `completed`. The todo page sends the first three, so they are lost on create. `TodoRoutes.CreateIgnoresOtherFields` and `TodoRoutes.CreateDoc` state this.
- The PATCH route for todos applies only `task`, `completed` and `dueDate`. The todo page's edits of `memo`, `tags` and `priority` are sent but lost. `TodoRoutes.PatchDoc` and `TodoRoutes.PatchIgnoresOtherFields` state this.
- Drag positions are positions in the displayed list, but they are applied to the whole list. `TodoList.DragUsesUnfilteredPositions` gives a case where a hidden todo moves.

## Model

| member | source | states |
|---|---|---|
| PomodoroTimer.Initial | frontend/src/components/PomodoroTimer.tsx:21-25 | the timer starts stopped, with the time left equal to the starting phase's duration, and the invariant holds |
| PomodoroTimer.TickStep | frontend/src/components/PomodoroTimer.tsx:30-37 | a tick keeps the invariant `0 <= timeLeft <= duration of the current phase` |
| PomodoroTimer.TransitionStep | frontend/src/components/PomodoroTimer.tsx:38-43 | the zero transition keeps the invariant |
| PomodoroTimer.ToggleStep | frontend/src/components/PomodoroTimer.tsx:50-52 | start/pause keeps the invariant |
| PomodoroTimer.ResetStep | frontend/src/components/PomodoroTimer.tsx:54-59 | reset keeps the invariant |
| PomodoroTimer.EditWorkStep | frontend/src/components/PomodoroTimer.tsx:61-68 | a work-time edit keeps the invariant when it is of at least one minute |
| PomodoroTimer.EditBreakStep | frontend/src/components/PomodoroTimer.tsx:70-77 | a break-time edit keeps the invariant when it is of at least one minute |
| PomodoroTimer.ZeroMinuteEdit | frontend/src/components/PomodoroTimer.tsx:61-77 | an edit to 0 minutes of the current phase leaves no time and breaks the invariant |
| PomodoroTimer.TickSpec | frontend/src/components/PomodoroTimer.tsx:30-36 | a tick happens exactly while the timer is active with time left; it lowers the time left by one, reports the new time with unchanged phase and durations, and changes nothing else; otherwise nothing happens |
| PomodoroTimer.TransitionSpec | frontend/src/components/PomodoroTimer.tsx:38-42 | at zero the phase flips, the time left becomes the new phase's duration (work after a break, break after work), the timer stops, and exactly one report gives the new phase and time |
| PomodoroTimer.TransitionOnlyAtZero | frontend/src/components/PomodoroTimer.tsx:38 | with time left the transition branch changes and reports nothing |
| PomodoroTimer.NoAutoContinue | frontend/src/components/PomodoroTimer.tsx:30-39 | after a transition no tick fires until the timer is started again |
| PomodoroTimer.ResetSpec | frontend/src/components/PomodoroTimer.tsx:54-59 | reset gives a stopped work phase with the full work time, reports exactly that, and keeps both durations |
| PomodoroTimer.ToggleSpec | frontend/src/components/PomodoroTimer.tsx:50-52 | start/pause flips only `isActive`; toggling twice restores the state |
| PomodoroTimer.EditWorkSpec | frontend/src/components/PomodoroTimer.tsx:61-68 | the work time becomes `minutes * 60`; in the work phase the time left is reset and one report is made; in a break the time left is untouched and nothing is reported |
| PomodoroTimer.EditBreakSpec | frontend/src/components/PomodoroTimer.tsx:70-77 | the mirror image for the break time |
| PomodoroTimer.RunTicks | frontend/src/components/PomodoroTimer.tsx:30-37 | any number of consecutive ticks keeps the invariant |
| PomodoroTimer.CountdownSpec | frontend/src/components/PomodoroTimer.tsx:30-36 | `n` ticks of a running timer with at least `n` seconds left lower the time left by `n` and report each second in turn |
| PomodoroTimer.PhaseRunsOut | frontend/src/components/PomodoroTimer.tsx:30-43 | a running phase counts down to zero, further ticks do nothing, and the transition leaves the timer stopped at the start of the other phase after `timeLeft + 1` reports |
| PomodoroTimer.IdleTicks | frontend/src/components/PomodoroTimer.tsx:30 | at zero time left, ticks change and report nothing |
| PomodoroTimer.JsRemainder | frontend/src/components/PomodoroTimer.tsx:81 | JavaScript's `%`: with the quotient rounded toward zero, dividend = divisor × quotient + remainder; the remainder is smaller than the divisor in size, and is zero or has the dividend's sign |
| PomodoroTimer.FormatTimeSpec | frontend/src/components/PomodoroTimer.tsx:79-83 | for `s >= 0` the text is digits, a colon and two digits of seconds below 60; `minutes * 60 + seconds == s`; it is exactly five characters when `s < 6000` |
| PomodoroTimer.Timer.constructor | frontend/src/components/PomodoroTimer.tsx:21-25 | the component's state is `Initial(...)` and nothing has been reported yet |
| PomodoroTimer.Timer.Tick | frontend/src/components/PomodoroTimer.tsx:30-37 | the state becomes the tick step's next state, the reports are appended to the log, and the invariant holds |
| PomodoroTimer.Timer.Transition | frontend/src/components/PomodoroTimer.tsx:38-43 | the same for the zero transition |
| PomodoroTimer.Timer.ToggleTimer | frontend/src/components/PomodoroTimer.tsx:50-52 | the same for start/pause, which reports nothing |
| PomodoroTimer.Timer.ResetTimer | frontend/src/components/PomodoroTimer.tsx:54-59 | the same for reset |
| PomodoroTimer.Timer.HandleWorkTimeChange | frontend/src/components/PomodoroTimer.tsx:61-68 | the same for a work-time edit |
| PomodoroTimer.Timer.HandleBreakTimeChange | frontend/src/components/PomodoroTimer.tsx:70-77 | the same for a break-time edit |
| Text.Split | frontend/src/components/TodoList.tsx:50 | `k` separators give `k + 1` pieces, none holding the separator |
| Text.JoinSplit | frontend/src/components/TodoList.tsx:42-50 | joining the split pieces gives the text back |
| Text.SplitJoin | frontend/src/components/TodoList.tsx:42-50 | splitting a join of separator-free pieces gives the pieces back |
| Text.Trim | frontend/src/components/TodoList.tsx:180 | the result has no white space at either end, and it is empty exactly when the input is all white space |
| Text.TrimInfix | frontend/src/components/TodoList.tsx:50 | the trimmed text is the slice `s[i..j]` of the input with only white space before `i` and after `j` |
| Text.SplitCommaSpaceJoin | frontend/src/components/TodoList.tsx:42-50 | splitting a `", "`-join of comma-free pieces at the commas gives the pieces, each after the first with a space in front |
| Text.TrimSpacePrefix | frontend/src/components/TodoList.tsx:50 | a space in front does not change what `trim` gives |
| Text.TrimIdempotent | frontend/src/components/TodoList.tsx:50 | trimming twice is trimming once |
| Text.CompareAntisymmetric | frontend/src/components/TodoList.tsx:281-282 | swapping the arguments of the string order negates the result |
| Text.CompareZero | frontend/src/components/TodoList.tsx:281-282 | the string order is zero exactly on equal strings |
| Text.CompareTransitive | frontend/src/components/TodoList.tsx:281-282 | the string order is transitive |
| Text.NatToStringValue | frontend/src/components/PomodoroTimer.tsx:82 | `String(n)` reads back as `n` |
| Text.PadStart | frontend/src/components/PomodoroTimer.tsx:82 | `padStart` keeps the text as a suffix and fills up to the width with the fill character |
| Text.LeadingZeros | frontend/src/components/PomodoroTimer.tsx:82 | zeros in front of a digit string do not change its value |
| TodoList.ParseTags | frontend/src/components/TodoList.tsx:191 | `k` commas give `k + 1` tags; no tag holds a comma or starts or ends with white space (the edit form splits the same way, line 50) |
| TodoList.ParseTagsJoin | frontend/src/components/TodoList.tsx:191 | tags typed with commas between them come back one by one, trimmed |
| TodoList.ParseTagsEditText | frontend/src/components/TodoList.tsx:42-50 | an edit that leaves the pre-filled `tags.join(', ')` text alone puts the todo's tags, trimmed, in the edit request; for a todo without tags the edit request carries the single tag `""` |
| TodoList.ParseTagsEmpty | frontend/src/components/TodoList.tsx:191 | an empty tag input gives one empty tag |
| TodoList.AllTags | frontend/src/components/TodoList.tsx:162 | every tag of every todo appears exactly once, in order of first occurrence |
| TodoList.FilterByStatus | frontend/src/components/TodoList.tsx:265-269 | `active` keeps exactly the incomplete todos and `completed` exactly the completed ones; `all` keeps the whole list; the order is kept, and each kept todo keeps all its occurrences |
| TodoList.FilterByTag | frontend/src/components/TodoList.tsx:270-273 | `__all__` and `""` keep the whole list; any other tag keeps exactly the todos carrying it, in order and with all their occurrences |
| TodoList.ComparatorAntisymmetric | frontend/src/components/TodoList.tsx:274-288 | the sort's comparator is antisymmetric for each key and order |
| TodoList.ComparatorTransitive | frontend/src/components/TodoList.tsx:274-288 | the sort's comparator is transitive for each key and order |
| TodoList.SortedByDueDateMeaning | frontend/src/components/TodoList.tsx:275-278 | sorted by due date means rising dates ascending and falling dates descending |
| TodoList.SortedByTaskMeaning | frontend/src/components/TodoList.tsx:279-282 | sorted by task means the string order ascending and its reverse descending |
| TodoList.SortedByCompletedMeaning | frontend/src/components/TodoList.tsx:283-287 | sorted by completion means incomplete todos before completed ones ascending, after them descending |
| TodoList.InsertPermutes | frontend/src/components/TodoList.tsx:274-288 | an insertion step adds exactly one occurrence of the inserted todo |
| TodoList.InsertSorted | frontend/src/components/TodoList.tsx:274-288 | an insertion step into a sorted list leaves it sorted |
| TodoList.SortTodos | frontend/src/components/TodoList.tsx:274-288 | the result is a permutation of the input, sorted by the chosen key and order |
| TodoList.SortedAndFiltered | frontend/src/components/TodoList.tsx:264-288 | the displayed list is a sorted permutation of the doubly filtered list, and holds exactly the todos passing both filters |
| TodoList.ToggleSortSpec | frontend/src/components/TodoList.tsx:290-297 | the current key flips the order; a new key is selected ascending; toggling the same key twice restores the state |
| TodoList.MoveUnique | frontend/src/components/TodoList.tsx:304-306 | a move is determined by the list and the two positions, and it keeps every element |
| TodoList.Reorder | frontend/src/components/TodoList.tsx:304-306 | the two splices keep the length and the elements, put the dragged todo at the destination, and keep the other todos in their relative order |
| TodoList.MoveHiddenKeepsView | frontend/src/components/TodoList.tsx:264-309 | moving a todo that the status filter hides leaves the displayed list unchanged, for every tag filter and sort |
| TodoList.DragUsesUnfilteredPositions | frontend/src/components/TodoList.tsx:299-309 | with completed todos hidden, dragging the first shown todo onto the second gives `[first, hidden, second]`: the hidden todo moves, and the displayed list is unchanged for every tag filter and sort (the positions come from the filtered list rendered at lines 398-402) |
| TodoList.HandleEdit | frontend/src/components/TodoList.tsx:45-54 | the edit sends the edited fields, with the tags `ParseTags` of the tag text: one trimmed tag per comma-separated piece |
| TodoList.ReplaceById | frontend/src/components/TodoList.tsx:225 | the list keeps its length; exactly the todos with the id are replaced by the server's todo (also line 258) |
| TodoList.RemoveById | frontend/src/components/TodoList.tsx:239 | exactly the todos with the id are dropped; every other todo keeps all its occurrences and its order |
| TodoList.TodoListState.constructor | frontend/src/components/TodoList.tsx:145-155 | the first render's state: no todos, an empty draft due today with medium priority, all statuses, all tags, by due date ascending |
| TodoList.TodoListState.FetchTodos | frontend/src/components/TodoList.tsx:166-177 | the list becomes the server's list; a failure changes nothing |
| TodoList.AddRequest | frontend/src/components/TodoList.tsx:180-193 | a request exists exactly when the trimmed task is non-empty and a due date is set; it carries the draft's fields, with the tag text split and trimmed |
| TodoList.ToggleRequest | frontend/src/components/TodoList.tsx:213-219 | the requested `completed` is false exactly when the first todo with the id is completed |
| TodoList.TodoListState.AddTask | frontend/src/components/TodoList.tsx:179-209 | the request is `AddRequest` of the draft; after the answer one todo is appended and the draft is cleared, due today; otherwise the list and draft do not change |
| TodoList.TodoListState.ToggleCompletion | frontend/src/components/TodoList.tsx:211-229 | it requests `ToggleRequest` of the list; after the answer the matching todos are replaced |
| TodoList.TodoListState.RemoveTask | frontend/src/components/TodoList.tsx:231-243 | after a successful delete, exactly the todos with the id are gone |
| TodoList.TodoListState.EditTask | frontend/src/components/TodoList.tsx:245-262 | after the answer, the todos with the id are replaced |
| TodoList.TodoListState.SetFilter | frontend/src/components/TodoList.tsx:360 | only the status filter changes, to the chosen one |
| TodoList.TodoListState.SetTagFilter | frontend/src/components/TodoList.tsx:370 | only the tag filter changes, to the chosen tag |
| TodoList.TodoListState.ToggleSort | frontend/src/components/TodoList.tsx:290-297 | the key and the order become `ToggleSortOf` of the old ones |
| TodoList.TodoListState.OnDragEnd | frontend/src/components/TodoList.tsx:299-309 | without a destination the list is unchanged; otherwise the list is the move of the source position to the destination |
| EventCalendar.EventItem | frontend/src/components/EventCalendar.tsx:59-64 | an event entry keeps the event's fields and is marked as an event |
| EventCalendar.TodoItem | frontend/src/components/EventCalendar.tsx:80-87 | a todo entry has the task as title and `start = end = dueDate`, is marked as a todo, and is `#4CAF50` exactly when completed and `#FFC107` otherwise |
| EventCalendar.MergeEventsSpec | frontend/src/components/EventCalendar.tsx:57-65 | after an event fetch the event entries are exactly the fetched events, and the todo entries are kept in order |
| EventCalendar.MergeTodosSpec | frontend/src/components/EventCalendar.tsx:78-88 | after a todo fetch the todo entries are exactly the fetched todos, and the event entries are kept in order |
| EventCalendar.FetchOrderIrrelevant | frontend/src/components/EventCalendar.tsx:45-79 | whichever fetch finishes first, the entries end up as exactly the fetched events and the fetched todos |
| EventCalendar.Visible | frontend/src/components/EventCalendar.tsx:122-124 | event entries are shown exactly when events are shown, and todo entries exactly when todos are shown, in order |
| EventCalendar.SelectRoundTrip | frontend/src/components/EventCalendar.tsx:130-142 | choosing `both`, `events` or `todos` makes the select show that choice; re-choosing the shown value keeps the state; an unknown value shows todos only; at least one kind is always shown |
| EventCalendar.TodoColors | frontend/src/components/EventCalendar.tsx:201-205 | each todo entry from a fetch is drawn `#4CAF50` exactly when its todo is completed and `#FFC107` when it is not (colours set at line 85) |
| EventCalendar.EventCalendarState.FetchEvents | frontend/src/components/EventCalendar.tsx:50-69 | the list becomes the event merge; a failure changes nothing |
| EventCalendar.EventCalendarState.FetchTodos | frontend/src/components/EventCalendar.tsx:71-92 | the list becomes the todo merge; a failure changes nothing |
| EventCalendar.EventCalendarState.AddEvent | frontend/src/components/EventCalendar.tsx:94-120 | it posts the draft exactly when the title is non-empty and start and end are set; on success it appends one event entry, resets the draft and closes the dialog; otherwise nothing changes |
| EventCalendar.EventCalendarState.SelectShown | frontend/src/components/EventCalendar.tsx:131-142 | the shown kinds become `OnValueChange(value)` |
| EventCalendar.ShownTitle | frontend/src/components/EventCalendar.tsx:164 | the title input shows the draft's title, and the empty string when none is set |
| EventCalendar.SubmitNeedsShownTitle | frontend/src/components/EventCalendar.tsx:95 | the Add Event button posts only while the title input (line 164) shows some text; an empty title input means no post |
| EventCalendar.ShownColor | frontend/src/components/EventCalendar.tsx:187 | the colour input never shows an empty colour: it shows the picked colour, and `#3788d8` when none (or the empty string) was picked |
| EventCalendar.PostedBody | frontend/src/components/EventCalendar.tsx:101 | the posted body carries the draft's five fields, absent where not typed |
| EventCalendar.StoredColorIsShownColor | frontend/src/components/EventCalendar.tsx:187 | the event stored from a posted draft has the colour the dialog showed, picked or default (the schema default is at backend/src/models/Event.js line 21) |
| EventCalendar.SubmittableIsValid | frontend/src/components/EventCalendar.tsx:95 | the page posts exactly the drafts the server's validation accepts |
| EventCalendar.EventCalendarState.constructor | frontend/src/components/EventCalendar.tsx:39-43 | no entries, an empty draft, the dialog closed, both kinds shown |
| EventCalendar.EventCalendarState.SetDialogOpen | frontend/src/components/EventCalendar.tsx:153 | the dialog's open flag becomes the given one |
| EventCalendar.EventCalendarState.SetTitle | frontend/src/components/EventCalendar.tsx:165 | only the draft's title changes |
| EventCalendar.EventCalendarState.SetStart | frontend/src/components/EventCalendar.tsx:171 | only the draft's start changes |
| EventCalendar.EventCalendarState.SetEnd | frontend/src/components/EventCalendar.tsx:177 | only the draft's end changes |
| EventCalendar.EventCalendarState.SetDescription | frontend/src/components/EventCalendar.tsx:182 | only the draft's description changes |
| EventCalendar.EventCalendarState.SetColor | frontend/src/components/EventCalendar.tsx:188 | only the draft's colour changes |
| SharedCalendar.TodoEntry | frontend/src/components/Calendar.tsx:62-70 | a todo entry is titled `Todo: ` and the task, lies on the due date, is all-day, is marked as a todo and copies `completed` |
| SharedCalendar.Combine | frontend/src/components/Calendar.tsx:56-72 | the list is every event followed by one entry per todo; its length is the sum |
| SharedCalendar.StyleOf | frontend/src/components/Calendar.tsx:78-87 | todo entries are `#4CAF50` when completed and `#FFA726` when not; other entries get no colour |
| SharedCalendar.CombinedStyles | frontend/src/components/Calendar.tsx:72-87 | in the combined list, event entries get no colour and each todo entry's colour follows its todo's completion |
| SharedCalendar.MonthStart | frontend/src/components/Calendar.tsx:113-114 | `new Date(y, m, 1)` is day 1 of a valid month that counts the same number of months as `(y, m)` |
| SharedCalendar.PrevMonthSpec | frontend/src/components/Calendar.tsx:113 | Prev goes to day 1 of the month before; January goes to December of the year before |
| SharedCalendar.NextMonthSpec | frontend/src/components/Calendar.tsx:114 | Next goes to day 1 of the month after; December goes to January of the year after |
| SharedCalendar.NextPrevRoundTrip | frontend/src/components/Calendar.tsx:113-114 | Next then Prev, and Prev then Next, return to day 1 of the original month |
| SharedCalendar.SharedCalendarState.constructor | frontend/src/components/Calendar.tsx:34-36 | no entries, the month view, and today's date |
| SharedCalendar.SharedCalendarState.FetchEventsAndTodos | frontend/src/components/Calendar.tsx:42-76 | the entries become the combined list when both fetches succeed, and are unchanged otherwise |
| SharedCalendar.SharedCalendarState.HandleViewChange | frontend/src/components/Calendar.tsx:89-91 | only the view changes |
| SharedCalendar.SharedCalendarState.HandleNavigate | frontend/src/components/Calendar.tsx:93-95 | only the date changes |
| SharedCalendar.SharedCalendarState.Today | frontend/src/components/Calendar.tsx:112 | the date becomes today |
| SharedCalendar.SharedCalendarState.Prev | frontend/src/components/Calendar.tsx:113 | the date becomes day 1 of the previous month |
| SharedCalendar.SharedCalendarState.Next | frontend/src/components/Calendar.tsx:114 | the date becomes day 1 of the next month |
| Dashboard.Recent | frontend/src/components/Dashbord.tsx:40 | the stored list is the first `min(n, 5)` fetched todos, as a prefix |
| Dashboard.ToggleRequest | frontend/src/components/Dashbord.tsx:48-56 | no request is made exactly when no todo has the id; otherwise it asks for the opposite of the first matching todo's `completed` |
| Dashboard.Replace | frontend/src/components/Dashbord.tsx:65-69 | the length is kept, and exactly the todos with the id become the server's todo |
| Dashboard.ReplaceOnly | frontend/src/components/Dashbord.tsx:65-69 | with one matching todo, only that position changes |
| Dashboard.DashboardState.constructor | frontend/src/components/Dashbord.tsx:27 | no todos |
| Dashboard.DashboardState.FetchTodos | frontend/src/components/Dashbord.tsx:33-44 | the list becomes the first five fetched todos; a failure changes nothing |
| Dashboard.DashboardState.ToggleTodo | frontend/src/components/Dashbord.tsx:46-74 | the request is `ToggleRequest`; the list changes only after a sent request is answered, and then by `Replace` |
| PomodoroReport.Pomodoros | frontend/src/components/PomodoroReport.tsx:36 | `pomodorosCompleted`, or 0 when it is missing |
| PomodoroReport.RowOf | frontend/src/components/PomodoroReport.tsx:35-37 | the row is named after the task; `totalWorkTime * 60 == pomodoros * workTime`; `totalWorkTime` is 0 whenever the pomodoros are 0 |
| PomodoroReport.ReportData | frontend/src/components/PomodoroReport.tsx:34-38 | there is exactly one row per todo, in the same order |
| PomodoroReport.WholeMinutes | frontend/src/components/PomodoroReport.tsx:37 | a work time of `m` whole minutes gives `pomodoros * m` minutes |
| TodoSchema.NewTodo | backend/src/models/Todo.js:4-54 | every given field is stored as given; every missing field gets its default: not completed, medium priority, empty memo, no tags, 1500/300/1500 seconds, work phase, 0 pomodoros |
| TodoSchema.RequiredFields | backend/src/models/Todo.js:6-22 | a todo without a task or a due date is invalid; the priority must be low, medium or high |
| TodoSchema.FreshTodo | backend/src/models/Todo.js:10-51 | a todo given only a task and a due date has the defaults, with `currentTime == workTime` in the work phase, and is valid exactly when the task is not empty |
| EventSchema.NewEvent | backend/src/models/Event.js:3-23 | the given fields are kept; the description has no default; the colour defaults to `#3788d8` |
| EventSchema.RequiredFields | backend/src/models/Event.js:4-18 | an event without a title, a start or an end is invalid; the description never affects validity |
| TodoRoutes.NumberOr | backend/src/routes/todoRoutes.js:20-22 | the logical-or default on a number gives the default for an absent value and for 0, and the value otherwise |
| TodoRoutes.CreateDoc | backend/src/routes/todoRoutes.js:17-24 | task and due date are copied; the timer fields take their default when absent or 0; memo, tags, priority, completed and pomodoros take the schema defaults |
| TodoRoutes.CreateIgnoresOtherFields | backend/src/routes/todoRoutes.js:17-24 | only task, due date and the four timer fields of the body affect the created todo |
| TodoRoutes.CreateZeroIsDefault | backend/src/routes/todoRoutes.js:20-22 | a 0 in a timer field of the body gives the default |
| TodoRoutes.PatchIgnoresOtherFields | backend/src/routes/todoRoutes.js:38-46 | two bodies that agree on task, completed and due date patch a document the same way; memo, tags and priority of the stored todo stay as they were |
| TodoRoutes.PatchDoc | backend/src/routes/todoRoutes.js:38-46 | task, completed and due date are replaced when present (`false` included); every other field is unchanged |
| TodoRoutes.PatchTimerDoc | backend/src/routes/todoRoutes.js:68-82 | the five timer fields are replaced when present; every other field is unchanged |
| TodoRoutes.PatchIdempotent | backend/src/routes/todoRoutes.js:35-52 | both patches are idempotent, and an empty body changes nothing (the timer patch is lines 65-88) |
| TodoRoutes.PatchesCommute | backend/src/routes/todoRoutes.js:38-46 | the two patches commute, and a timer patch keeps a valid todo valid (the timer patch assigns at lines 68-82) |
| TodoRoutes.TodoStore.constructor | backend/src/models/Todo.js:56 | the todo collection starts with no documents |
| TodoRoutes.TodoStore.Create | backend/src/routes/todoRoutes.js:16-32 | the answer is 201 with the new todo stored under the fresh id, or 400 with the store unchanged when validation or the write fails; stored todos stay valid |
| TodoRoutes.TodoStore.Patch | backend/src/routes/todoRoutes.js:35-52 | an unknown id answers 400; otherwise the stored todo becomes `PatchDoc` of it, or the answer is 400 when the result is invalid or the write fails |
| TodoRoutes.TodoStore.PatchTimer | backend/src/routes/todoRoutes.js:65-88 | an unknown id answers 400; otherwise the stored todo becomes `PatchTimerDoc` of it, unless the write fails |
| TodoRoutes.TodoStore.Delete | backend/src/routes/todoRoutes.js:55-62 | the answer is "Todo deleted" whether or not the id was stored, and the id is gone; a store failure answers 500 and changes nothing |
| EventRoutes.CreateDoc | backend/src/routes/eventRoutes.js:17-23 | title, start, end, description and colour are copied; a missing colour is the schema default `DefaultColor` (`#3788d8`) |
| EventRoutes.PatchDoc | backend/src/routes/eventRoutes.js:37-51 | each of the five fields is replaced when present in the body, and kept otherwise |
| EventRoutes.PatchSpec | backend/src/routes/eventRoutes.js:34-57 | the patch is idempotent; an empty body changes nothing; a full body gives the same event as a create |
| EventRoutes.EventStore.constructor | backend/src/models/Event.js:25 | the event collection starts with no documents |
| EventRoutes.EventStore.Create | backend/src/routes/eventRoutes.js:16-31 | the answer is 201 with the new event stored, or 400 with the store unchanged |
| EventRoutes.EventStore.Patch | backend/src/routes/eventRoutes.js:34-57 | an unknown id answers 400; otherwise the stored event becomes `PatchDoc` of it, or 400 when it is invalid or the write fails |
| EventRoutes.EventStore.Delete | backend/src/routes/eventRoutes.js:60-67 | the answer is "Event deleted" whether or not the id was stored; a store failure answers 500 and changes nothing |
| Base.Filter | frontend/src/components/TodoList.tsx:239 | the result keeps exactly the elements passing the test, in order |
| Base.FilterRemoveDropped | frontend/src/components/TodoList.tsx:265-269 | taking out an element the filter drops does not change the filtered sequence |
| Base.FilterConcat | frontend/src/components/EventCalendar.tsx:57-58 | filtering a concatenation filters each part |
| Base.Find | frontend/src/components/Dashbord.tsx:48 | `find` gives nothing exactly when no element matches, and otherwise the first match |
| Base.Distinct | frontend/src/components/TodoList.tsx:162 | `Array.from(new Set(xs))` holds each element of `xs` once, in order of first occurrence |
| Base.Take | frontend/src/components/Dashbord.tsx:40 | `slice(0, n)` is the prefix of length `min(n, length)` |

## Left out

- Network and I/O: `fetch`, `async`/`await`, JSON, HTTP status handling on the client, and `console.error`. Server answers and failures are parameters of the methods.
- Express routing, CORS, environment setup, the Mongo connection and the GET list routes. The store is a map. The GET routes only return the stored documents in database order.
- `setInterval`/`clearInterval` and React's effect re-runs. The tick and the zero transition are separate steps, and the caller chooses when each happens.
- Asynchronous state: the todo page's handlers replace the list they captured when called, which loses concurrent updates. The model applies each answer to the current list.
- EventCalendar.EventCalendarState.AddEvent: it appends the created event to the current list. `handleAddEvent` appends it to the `events` captured when it was called (EventCalendar.tsx line 108), so an update that lands in between is lost; that loss is not modelled.
- `parseInt` of the minutes inputs, and its NaN case: the edits take an integer.
- PomodoroTimer.Timer.HandleWorkTimeChange, PomodoroTimer.Timer.HandleBreakTimeChange: they require at least one minute. The inputs' `min="1"` does not stop a typed 0 or a negative number, and `onChange` still fires; the model excludes such edits from the timer class. The step functions take any integer, and `PomodoroTimer.ZeroMinuteEdit` shows that a 0-minute edit breaks the invariant. With both durations at 0, the zero transition would fire again on every re-run of the effect; that loop is not modelled.
- `localeCompare`: it is locale-dependent, so the task sort uses lexicographic order by character code (`Text.Compare`).
- `Date` parsing and formatting: dates are integer timestamps, and calendar days are `(year, month0, day)`. Time of day and invalid dates are not modelled.
- `TodoList.SortTodos`: stability of `Array.prototype.sort` is not stated. The result is proved to be a sorted permutation only.
- `TodoList.TodoListState.OnDragEnd`: it requires both drag positions to be positions of the displayed list. The drag library guarantees this.
- Floating point in the report: `totalWorkTime` is an exact `real`.
- Mongoose casting of wrongly typed body values, and the difference between `null` and `undefined` body fields. Both become an absent `Option`, so an explicit `null` colour or priority is modelled as taking the default.
- The `timestamps` fields and the `_id` generation of the schemas. A fresh id is a parameter that is not yet in the store.
- The draft setters of the todo page's inputs (`setNewTask` and the others), which only assign one field each, and the editing flag and inputs of `TodoItem`.
- Rendering: JSX, react-beautiful-dnd, react-big-calendar, recharts, the priority badge classes, and the components that are only composition or navigation (`Navbar`, `Sidebar`, `SignUp`, the layout and the pages).
