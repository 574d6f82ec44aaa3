# To-do app client state, modelled in Dafny

This project models the client-side state layer of a single-page to-do
application (React, Redux Toolkit and RTK Query), together with the small
input state machines of its form components. It covers these pieces:

- **The task cache** (`todo_api.dfy`, module `TodoApi`). Two query results are
  cached: "all tasks" and "completed tasks". Five mutations use optimistic
  updates on them.
  - Create prepends a temporary task, then swaps it for the server's task or
    undoes the prepend.
  - Update-text, delete, complete and incomplete patch both lists, then keep
    the patches or undo them all.
  - The cache is the class `TaskCache`, whose two `seq<Task>` fields the patch
    methods reassign. Each patch returns the snapshot it needs to be undone.
  - The patches are specified by functions on lists (`EditFirst`,
    `RemoveFirst`, `Patched`, `Settled`, `CreateSettled`). Lemmas state their
    properties: frame conditions, no insertion into the completed list,
    preservation of "completed exactly when a completion date is set", and
    restoration on failure.
- **The derived selectors** (`selectors.dfy`): the shown list, the loading
  flag, the statistics and the displayed error.
- **The error formatter** `handleAsyncError` and `clearErrorMessage`
  (`actions.dfy`).
- **The application slice** (`app_slice.dfy`): filter, error slot and theme,
  as a class with one method per reducer.
- **The application component's handlers** (`app.dfy`): the single-task
  handlers, the three bulk actions, the toggle-all box, retry, and the effect
  that reports query errors.
- **The form components** (`task_item.dfy`, `task_form.dfy`,
  `task_creation_section.dfy`): the inline editor of a task, the plain
  new-task form, and the "Add New Task" section.

Shared pieces:
- `types.dfy` holds the `Task` record, the error shapes and the outcome of a
  remote call.
- `strings.dfy` holds JavaScript's `trim` over an explicit whitespace
  predicate, `includes`, and the decimal rendering of numbers in template
  literals.

Conventions:
- Every remote call is represented by its outcome (`Success` or `Failure`),
  which is a parameter.
- Clock readings (`Date.now()`) are also parameters.
- A call-back that a component makes (`onUpdate`, `onCreateTask`) is modelled
  as the method's return value.

Points where the code does something a quick reading might not expect (the model follows the code):
- The "incomplete" filter shows the unfiltered all-tasks list
  (`src/store/selectors.ts:33-51`).
- Completing a task never inserts it into the cached completed list
  (`src/services/todoApi.ts:155-167`).
- The query-error effect and retry pick their query by `filter === "all"`
  (`src/App.tsx:49-50`, `src/App.tsx:61-65`), while the selectors pick theirs
  by `filter === "completed"`. Under "incomplete" both query hooks are skipped
  (`src/App.tsx:38-46`), so there is no query error, the effect does not
  fire and the Retry button is not shown (`src/App.tsx:188`). The model
  takes the query errors as inputs, so it also covers error values that
  this skipping never produces.
- `find` and `findIndex` only touch the first task with a matching id.

## Model

| member | source | states |
|---|---|---|
| Strings.LeadingWhitespace | src/components/TaskItem.tsx:21 | where `trim` starts keeping: everything before is whitespace, and the character there is not whitespace (or the text has ended) |
| Strings.TrailingWhitespaceStart | src/components/TaskItem.tsx:21 | where `trim` stops keeping: everything from there to the end is whitespace, and the character just before is not whitespace (or the leading cut is reached) |
| Strings.Trim | src/components/TaskItem.tsx:21 | `s.trim()` is `s` with its leading and trailing whitespace cut off: the result starts just after the leading whitespace, and everything after it is whitespace |
| Strings.TrimHasNoOuterWhitespace | src/components/TaskItem.tsx:21-22 | `trim(s)` neither starts nor ends with whitespace |
| Strings.TrimEmptyIffBlank | src/components/TaskForm.tsx:12 | `s.trim()` is falsy (empty) exactly when `s` is empty or whitespace only |
| Strings.TrimIdempotent | src/components/TaskForm.tsx:13 | trimming an already trimmed text changes nothing |
| Strings.TrimPadded | src/components/TaskItem.tsx:21-22 | whitespace padding in front of a trimmed text trims back to that text |
| Strings.TrimmedIfNotBlank | src/components/TaskForm.tsx:12-13 | the text passed on by a submit: present exactly when the input is not blank, then equal to the trimmed input, non-empty and already trimmed |
| Strings.Contains | src/store/actions.ts:23 | `includes`: a string contains only substrings no longer than itself |
| Strings.ContainsAt | src/store/actions.ts:23 | `includes` holds only when the substring occurs at an explicit position |
| Strings.ContainsFromAt | src/store/actions.ts:23 | an occurrence at any position makes `includes` hold; with `ContainsAt`, `includes` is exactly "occurs somewhere" |
| Strings.NatToString | src/store/selectors.ts:88 | a status number renders as a non-empty run of decimal digits with no leading zero (only 0 itself renders as "0"), the canonical numeral of a template literal |
| Strings.IntToStringInjective | src/services/todoApi.ts:34 | the decimal rendering of a clock reading in a template literal is unambiguous: different integers render differently |
| Strings.ParseNatToString | src/store/selectors.ts:88 | the decimal rendering of a status number is unambiguous: reading it back gives the number |
| TodoApi.FirstIndex | src/services/todoApi.ts:111 | `findIndex`: -1 exactly when no task has the id; otherwise an index holding the id with no earlier match |
| TodoApi.EditFirst | src/services/todoApi.ts:74-79 | a `find`-and-write patch keeps the length and every task except the first match; with no match the list is unchanged |
| TodoApi.RemoveFirst | src/services/todoApi.ts:110-115 | the `findIndex`/`splice` patch: one task shorter exactly when the id is present, the tasks before the match unchanged, the later ones shifted down by one |
| TodoApi.UpdateTextChangesOnlyText | src/services/todoApi.ts:74-93 | update-text rewrites only the `text` of the first match; every other task and field stays |
| TodoApi.EditKeepsIds | src/services/todoApi.ts:145-168 | a field-writing patch keeps the ids of the list in order: nothing added, removed or moved |
| TodoApi.CompleteNeverInserts | src/services/todoApi.ts:145-168 | complete keeps both lists' ids as they were; in each list the first match becomes that task with `completed` true and that list's clock reading as date, its id, text and creation date kept; every other task is unchanged |
| TodoApi.IncompleteLeavesCompletedList | src/services/todoApi.ts:185-207 | incomplete turns the first match in "all" into that task with `completed` false and no date, all else kept, leaves the other tasks of "all" unchanged, and shrinks "completed" by one exactly when the id was there |
| TodoApi.RemoveFirstSubset | src/services/todoApi.ts:110-115 | splicing adds no task: every remaining task was in the list |
| TodoApi.EditPreservesConsistency | src/services/todoApi.ts:147-152 | each field write keeps "completed exactly when completedDate is set" for every task |
| TodoApi.RemovePreservesConsistency | src/services/todoApi.ts:110-115 | removing a task keeps that invariant |
| TodoApi.SettledPreservesConsistency | src/services/todoApi.ts:144-213 | every two-list patch, and its settled state after success or failure, keeps the invariant in both lists |
| TodoApi.TempId | src/services/todoApi.ts:34 | the temporary id starts with `temp-`; the rest is the clock reading, which it determines (`TempIdInjective`) |
| TodoApi.TempIdInjective | src/services/todoApi.ts:34 | different clock readings give different temporary ids, which the commit relies on to find its task |
| TodoApi.TempTask | src/services/todoApi.ts:33-38 | the optimistic task has the temporary id, the submitted text and the clock reading as creation date, and is open without completion date |
| TodoApi.Patched | src/services/todoApi.ts:144-213 | the optimistic phase of a two-list mutation never lengthens a list; only delete shortens "all"; update-text and complete keep the length of "completed" |
| TodoApi.Settled | src/services/todoApi.ts:184-214 | a settled two-list mutation is all or nothing: the lists end either exactly as before or exactly as patched, never with some patches kept and others undone |
| TodoApi.CreateSettled | src/services/todoApi.ts:31-63 | a settled create never touches "completed", and "all" has grown by one exactly when the server confirmed |
| TodoApi.CreatePreservesConsistency | src/services/todoApi.ts:33-57 | the optimistic list, and the lists after a confirmed or failed create, keep "completed exactly when completedDate is set", given a server task that keeps it |
| TodoApi.FailureRestoresLists | src/services/todoApi.ts:95-99 | a failed update, delete, complete or incomplete leaves both lists exactly as before |
| TodoApi.CreateSettledShape | src/services/todoApi.ts:31-63 | a confirmed create leaves "all" as the server's task followed by the old list; a failed create leaves both lists as before; "completed" is never touched |
| TodoApi.CreateLeavesNoTempId | src/services/todoApi.ts:51-57 | after a confirmed create no task carries the temporary id, and "all" has grown by exactly one |
| TodoApi.CommitReplacesInPlace | src/services/todoApi.ts:53-56 | the commit replaces the first task with the temporary id in place and changes nothing else; with no such task nothing changes |
| TodoApi.FindIndex | src/services/todoApi.ts:111 | the loop returns exactly `FirstIndex` |
| TodoApi.TaskCache.constructor | src/services/todoApi.ts:15-22 | the cache starts from the two fetched lists |
| TodoApi.TaskCache.Fetched | src/services/todoApi.ts:15-22 | a fetch replaces the list of its own query and leaves the other list alone |
| TodoApi.TaskCache.EditList | src/services/todoApi.ts:74-79 | the patch of one list: returns that list's snapshot, leaves `EditFirst` of the old list, and does not touch the other list |
| TodoApi.TaskCache.RemoveFromList | src/services/todoApi.ts:110-115 | the splice patch of one list: returns the snapshot, leaves `RemoveFirst` of the old list, and does not touch the other list |
| TodoApi.TaskCache.PatchCreate | src/services/todoApi.ts:41-45 | `unshift`: "all" becomes the temporary task followed by the old list; the snapshot of "all" is returned |
| TodoApi.TaskCache.CommitCreate | src/services/todoApi.ts:51-57 | "all" becomes `EditFirst` with the server's task replacing the temporary one; "completed" is unchanged |
| TodoApi.TaskCache.Undo | src/services/todoApi.ts:98 | undoing the patch results in order leaves `Restored` of the state before |
| TodoApi.TaskCache.CreateTask | src/services/todoApi.ts:31-63 | the whole create protocol leaves exactly `CreateSettled` of the old lists |
| TodoApi.TaskCache.Patch | src/services/todoApi.ts:82-93 | the optimistic phase patches "all" then "completed", returns both snapshots, and leaves `Patched` of the old lists |
| TodoApi.TaskCache.Mutate | src/services/todoApi.ts:184-214 | patch both lists, then keep the patches on success or undo them all on failure: exactly `Settled` of the old lists |
| AppSlice.Toggled | src/store/appSlice.ts:32 | the toggled theme always differs from the current one |
| AppSlice.ToggledTwice | src/store/appSlice.ts:31-33 | toggling twice gives back the original theme |
| AppSlice.AppState.constructor | src/store/appSlice.ts:12-16 | the initial state is filter "all", no error and theme "dark" |
| AppSlice.AppState.SetFilter | src/store/appSlice.ts:22-24 | sets the filter to the payload and changes nothing else |
| AppSlice.AppState.SetErrorMessage | src/store/appSlice.ts:25-27 | sets the error slot to the payload, which may be null, and changes nothing else |
| AppSlice.AppState.ClearError | src/store/appSlice.ts:28-30 | empties the error slot and changes nothing else |
| AppSlice.AppState.ToggleTheme | src/store/appSlice.ts:31-33 | swaps light and dark and changes nothing else |
| AppSlice.ClearErrorTwice | src/store/appSlice.ts:28-30 | clearing the error is idempotent |
| AppSlice.ToggleThemeTwice | src/store/appSlice.ts:31-33 | toggling the theme twice restores the whole state |
| Selectors.TasksData | src/store/selectors.ts:13-21 | the query's data, defaulting to `[]`: the cached list, or the empty list before the first fetch |
| Selectors.CurrentTasks | src/store/selectors.ts:33-41 | the completed query's list exactly when the filter is "completed", else the all-tasks list |
| Selectors.CurrentLoading | src/store/selectors.ts:43-51 | the completed query's loading flag exactly when the filter is "completed", else the all-tasks flag |
| Selectors.CurrentViewSource | src/store/selectors.ts:33-51 | the list and loading flag come from the completed query exactly when the filter is "completed", otherwise from the all-tasks query; "incomplete" shows the same list as "all"; a query without data shows the empty list |
| Selectors.WithCompleted | src/store/selectors.ts:56 | `tasks.filter(t => t.completed === status)`: every kept task has that status, a task is kept exactly when it has it, and it is kept as many times as it occurs |
| Selectors.WithCompletedSplit | src/store/selectors.ts:55-57 | the completed and the open tasks together account for the whole list |
| Selectors.WithCompletedKeepsAll | src/store/selectors.ts:56 | a filter that every task passes returns the list itself |
| Selectors.Stats | src/store/selectors.ts:53-66 | the total is the length; `0 <= completed <= total`; remaining is total minus completed, which is the number of open tasks; `allCompleted` holds exactly when the list is non-empty and every task is completed; `hasCompleted` holds exactly when some task is completed |
| Selectors.SelectTaskStats | src/store/selectors.ts:53-66 | the statistics of the shown list: of the completed query's list under "completed", else of the whole all-tasks list, so "incomplete" counts completed tasks too |
| Selectors.QueryErrorText | src/store/selectors.ts:86-92 | "API Error: <status>" when the error has a status, else its message if present, else "An unexpected error occurred"; never empty |
| Selectors.DisplayErrorMessage | src/store/selectors.ts:68-95 | a non-empty error slot wins; otherwise the active query's error is rendered; the result is null exactly when there is neither; a shown message is never empty |
| Actions.DataTruthy | src/store/actions.ts:9 | `error?.data` is false when absent, true for an object, and true for a string exactly when it is non-empty |
| Actions.StatusOrEmpty | src/store/actions.ts:16 | the status defaulting to `""`: the status text when the status is truthy, else the empty string |
| Actions.AsyncErrorMessage | src/store/actions.ts:6-26 | whatever the error's shape, the message contains the default message |
| Actions.AsyncErrorMessageCases | src/store/actions.ts:9-26 | the message for each shape: string data appended; object data's message appended; otherwise " (Server Error <status or empty>)"; with no data, " (HTTP <status>)"; a message kept as is if it already mentions the default, else appended; otherwise exactly the default |
| Actions.DefaultMessageOccurs | src/store/actions.ts:6-26 | the default occurs at an explicit position of the message |
| Actions.HandleAsyncError | src/store/actions.ts:4-30 | the error slot receives the formatted message and nothing else changes |
| Actions.ClearErrorMessage | src/store/actions.ts:32-34 | the error slot is emptied and nothing else changes |
| App.ErrorAfter | src/App.tsx:83-90 | after one awaited call the slot is cleared exactly on success; otherwise it holds a message containing the handler's default |
| App.Report | src/App.tsx:84-89 | the `try`/`catch` tail of a handler sets the slot to `ErrorAfter` and changes neither filter nor theme |
| App.HandleCreateTask | src/App.tsx:83-90 | the cache ends as `CreateSettled`; the slot is cleared on success, otherwise set with "Failed to create task" |
| App.HandleUpdateTask | src/App.tsx:92-99 | the cache ends as the settled update; the slot is cleared on success, otherwise set with "Failed to update task" |
| App.HandleDeleteTask | src/App.tsx:101-108 | the cache ends as the settled delete; the slot is cleared on success, otherwise set with "Failed to delete task" |
| App.ToggleCases | src/App.tsx:110-122 | checking runs complete and unchecking runs incomplete; the failure defaults are "Failed to complete task" and "Failed to mark as incomplete task" |
| App.HandleToggleComplete | src/App.tsx:110-122 | the cache ends as the settled toggle mutation and the slot is reported with the toggle's default |
| App.HandleFilterChange | src/App.tsx:124-126 | a filter change only sets the filter |
| App.BulkTargets | src/App.tsx:130-158 | complete-all targets exactly the open tasks shown; incomplete-all and delete-completed target exactly the completed ones, each as many times as it is shown |
| App.FirstFailure | src/App.tsx:131-133 | none exactly when every item succeeded; otherwise a failure preceded only by successes |
| App.BulkError | src/App.tsx:128-166 | a bulk action leaves at most one message, containing its action-level default; the slot is cleared exactly when every item succeeded |
| App.BulkEffectNeverGrows | src/App.tsx:128-138 | `BulkEffect`, the cache after a bulk action with the items settled one after another, grows no list, and "all" keeps its length unless the action deletes |
| App.BulkKeepsOnlySuccesses | src/App.tsx:128-138 | after a bulk action the cache is as if only the items that succeeded had run: each failed item is rolled back. This rests on settling the items one after another; in the source every optimistic patch is applied before any call settles |
| App.AllFailedLeavesCache | src/App.tsx:128-138 | when every item fails the cache is unchanged |
| App.SettleOne | src/App.tsx:131-133 | one more item settled on top of the items before it extends `BulkEffect` by that item |
| App.BulkEffectFailedLast | src/App.tsx:131-133 | an item whose call fails leaves the cache as if it had not been attempted |
| App.SettleAll | src/App.tsx:131-133 | settling the targets one by one leaves `BulkEffect` of the old cache, and the rejection is the first failure |
| App.RunBulk | src/App.tsx:128-166 | a bulk handler leaves `BulkEffect` over its targets and `BulkError` in the slot, and keeps filter and theme |
| App.HandleCompleteAllTasks | src/App.tsx:128-138 | complete-all over the open tasks, reported with "Failed to complete all tasks" |
| App.HandleIncompleteAllTasks | src/App.tsx:140-152 | incomplete-all over the completed tasks, reported with "Failed to mark all tasks as incomplete" |
| App.HandleDeleteCompletedTasks | src/App.tsx:154-166 | delete over the completed tasks, reported with "Failed to delete completed tasks" |
| App.ToggleAllDisabled | src/App.tsx:277 | the toggle-all box is enabled exactly when nothing is loading and the list is not empty |
| App.HandleToggleAll | src/App.tsx:270-276 | checking runs complete-all and unchecking runs incomplete-all |
| App.ToggleAllWiring | src/App.tsx:269-277 | when the box shows checked, unchecking targets every shown task and complete-all has nothing to do; an enabled unchecked box has an open task to complete; disabled exactly when loading or the list is empty |
| App.RefetchedQuery | src/App.tsx:61-65 | retry refetches the all-tasks query exactly when the filter is "all", and otherwise the completed query; under "incomplete" both hooks are skipped and the Retry button is not shown |
| App.HandleRefreshData | src/App.tsx:59-70 | retry refetches the query chosen by `filter === "all"`: success replaces that list only and clears the slot; failure keeps the cache and reports "Failed to refresh data" |
| App.LoadFailureDefault | src/App.tsx:75-78 | "Failed to load tasks" exactly when the filter is "all", otherwise "Failed to load completed tasks" |
| App.OnQueryError | src/App.tsx:73-81 | an error of the query chosen by `filter === "all"` is reported with "Failed to load tasks" or "Failed to load completed tasks"; with none the slot is untouched |
| TaskItem.UpdateToSend | src/components/TaskItem.tsx:20-25 | an update is sent exactly when the edit text is not blank and differs, untrimmed, from the task's text; it carries the task's id and the trimmed text, which is non-empty and trimmed |
| TaskItem.PaddedEditResendsText | src/components/TaskItem.tsx:21-22 | because the comparison is untrimmed, padding the current text with whitespace sends an update carrying the text the task already has |
| TaskItem.TaskItemState.constructor | src/components/TaskItem.tsx:17-18 | the editor starts closed and holds the task's text |
| TaskItem.TaskItemState.StartEditing | src/components/TaskItem.tsx:95 | the Edit button opens the editor and keeps its text |
| TaskItem.TaskItemState.ChangeText | src/components/TaskItem.tsx:57 | typing replaces the edit text only |
| TaskItem.TaskItemState.ReceiveTask | src/components/TaskItem.tsx:17-18 | a new task prop with the same id does not refresh the component state; a task with another id remounts the row (rows are keyed by id), which starts over as the constructor does |
| TaskItem.TaskItemState.HandleUpdate | src/components/TaskItem.tsx:20-25 | Save makes exactly the call `UpdateToSend` describes and always closes the editor |
| TaskItem.TaskItemState.HandleCancel | src/components/TaskItem.tsx:27-30 | Cancel resets the edit text to the task's text, closes the editor and makes no call |
| TaskItem.TaskItemState.HandleKeyPress | src/components/TaskItem.tsx:58 | Enter behaves exactly as Save; other keys change nothing |
| TaskItem.CancelThenSave | src/components/TaskItem.tsx:27-30 | after a cancel, whatever was typed, a save sends nothing |
| TaskForm.TaskFormState.constructor | src/components/TaskForm.tsx:8 | the field starts empty |
| TaskForm.TaskFormState.ChangeText | src/components/TaskForm.tsx:26 | typing replaces the field |
| TaskForm.TaskFormState.HandleSubmit | src/components/TaskForm.tsx:10-16 | a non-blank field sends its trimmed text and is emptied; a blank one sends nothing and is kept |
| TaskForm.SubmitTwice | src/components/TaskForm.tsx:12-15 | two submits in a row create at most one task |
| TaskCreationSection.CreationSectionState.constructor | src/components/TaskCreationSection.tsx:10 | the field starts empty |
| TaskCreationSection.CreationSectionState.SubmitDisabled | src/components/TaskCreationSection.tsx:45 | the button is disabled exactly when the field is blank, that is exactly when a submit would create nothing |
| TaskCreationSection.CreationSectionState.ChangeText | src/components/TaskCreationSection.tsx:33 | typing replaces the field |
| TaskCreationSection.CreationSectionState.HandleSubmit | src/components/TaskCreationSection.tsx:12-18 | a non-blank field sends its trimmed text and is emptied; a blank one sends nothing and is kept |
| TaskCreationSection.SubmitDisablesButton | src/components/TaskCreationSection.tsx:45 | a submit creates a task exactly when the button was enabled, and afterwards the button is disabled |

## Left out

- HTTP transport and RTK Query plumbing are not modelled: the base query, the URLs, the store and its middleware. A remote call is represented by its outcome, and a fetch by the data it delivers.
- Concurrency is not modelled. The bulk handlers start all item mutations at once through `Promise.all`; the model settles them one after the other, in list order. The error reported is the first failure in list order, whereas `Promise.all` rejects with the first failure in time.
- Undo is a snapshot restore. An Immer patch undo applied after other changes have intervened is not modelled.
- Clock readings are parameters and are not read from a clock.
- App.BulkMutation: a bulk complete gives both lists' patches the same clock reading, whereas each patch in the source reads the clock on its own.
- App.RunBulk: the precondition that there is one outcome per target only says that each target's remote call has an outcome. It is not a demand the source makes.
- The locale formatting of dates in the task row is not modelled, nor is the `console.error` call of the error formatter.
- Patches on a query that was never fetched are not modelled: the model assumes both cached lists hold data.
- Presentation components and markup are not modelled: buttons, header, footer, list, statistics panel, banner, theme switch and the style configuration. Only the state they show is.
- A `selectTheme` selector is imported by the theme switch but never defined; it is not part of this model.
- The `skip` option of the two query hooks (`src/App.tsx:38-46`) is not modelled: the query errors and the refetch outcome are inputs, so states that skipping rules out (a query error under "incomplete") are covered as well.
- The error shapes are restricted: server `data` is absent, a string or an object with an optional message, and `status` is a number or a name. Other JavaScript values are not modelled.
