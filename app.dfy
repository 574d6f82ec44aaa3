/** The event handlers of the application component. Each awaits its
    remote call(s) and then clears the error slot or fills it with an
    operation-specific message. A remote call is modelled by its outcome,
    given as a parameter, and runs the cache's optimistic protocol. */
module App {

  import opened Types
  import opened Strings
  import opened TodoApi
  import opened AppSlice
  import opened Selectors
  import opened Actions

  /** The error slot after one awaited remote call: cleared on success,
      the formatted failure otherwise. */
  function ErrorAfter<T>(outcome: Outcome<T>, defaultMessage: string): (r: Option<string>)
    ensures r.None? <==> outcome.Success?
    ensures r.Some? ==> Contains(r.value, defaultMessage)
  {
    match outcome
    case Success(_) => None
    case Failure(e) => Some(AsyncErrorMessage(e, defaultMessage))
  }

  /** `dispatch(clearErrorMessage())` in the `try`, or
      `dispatch(handleAsyncError(error, defaultMessage))` in the `catch`. */
  method Report<T>(app: AppState, outcome: Outcome<T>, defaultMessage: string)
    modifies app
    ensures app.errorMessage == ErrorAfter(outcome, defaultMessage)
    ensures app.filter == old(app.filter) && app.theme == old(app.theme)
  {
    match outcome
    case Success(_) => ClearErrorMessage(app);
    case Failure(e) => HandleAsyncError(app, e, defaultMessage);
  }

  method HandleCreateTask(cache: TaskCache, app: AppState, text: string, clock: int, now: int, outcome: Outcome<Task>)
    modifies cache, app
    ensures cache.Contents() == CreateSettled(old(cache.Contents()), clock, text, now, outcome)
    ensures app.errorMessage == ErrorAfter(outcome, "Failed to create task")
    ensures app.filter == old(app.filter) && app.theme == old(app.theme)
  {
    cache.CreateTask(text, clock, now, outcome);
    Report(app, outcome, "Failed to create task");
  }

  method HandleUpdateTask(cache: TaskCache, app: AppState, id: string, text: string, outcome: Outcome<()>)
    modifies cache, app
    ensures cache.Contents() == Settled(old(cache.Contents()), UpdateTaskText(id, text), outcome.Success?)
    ensures app.errorMessage == ErrorAfter(outcome, "Failed to update task")
    ensures app.filter == old(app.filter) && app.theme == old(app.theme)
  {
    cache.Mutate(UpdateTaskText(id, text), outcome);
    Report(app, outcome, "Failed to update task");
  }

  method HandleDeleteTask(cache: TaskCache, app: AppState, id: string, outcome: Outcome<()>)
    modifies cache, app
    ensures cache.Contents() == Settled(old(cache.Contents()), DeleteTask(id), outcome.Success?)
    ensures app.errorMessage == ErrorAfter(outcome, "Failed to delete task")
    ensures app.filter == old(app.filter) && app.theme == old(app.theme)
  {
    cache.Mutate(DeleteTask(id), outcome);
    Report(app, outcome, "Failed to delete task");
  }

  /** The mutation a checkbox toggle runs: complete when checked,
      incomplete when unchecked. */
  function ToggleMutation(id: string, completed: bool, nowAll: int, nowCompleted: int): Mutation
  {
    if completed then CompleteTask(id, nowAll, nowCompleted) else IncompleteTask(id)
  }

  /** `Failed to ${completed ? "complete" : "mark as incomplete"} task` */
  function ToggleFailureDefault(completed: bool): string
  {
    "Failed to " + (if completed then "complete" else "mark as incomplete") + " task"
  }

  /** A toggle runs complete exactly when the box is checked, and a failure
      names the action it tried. */
  lemma ToggleCases(id: string, nowAll: int, nowCompleted: int)
    ensures ToggleMutation(id, true, nowAll, nowCompleted) == CompleteTask(id, nowAll, nowCompleted)
    ensures ToggleMutation(id, false, nowAll, nowCompleted) == IncompleteTask(id)
    ensures ToggleFailureDefault(true) == "Failed to complete task"
    ensures ToggleFailureDefault(false) == "Failed to mark as incomplete task"
  {
  }

  method HandleToggleComplete(cache: TaskCache, app: AppState, id: string, completed: bool,
                              nowAll: int, nowCompleted: int, outcome: Outcome<()>)
    modifies cache, app
    ensures cache.Contents() == Settled(old(cache.Contents()), ToggleMutation(id, completed, nowAll, nowCompleted), outcome.Success?)
    ensures app.errorMessage == ErrorAfter(outcome, ToggleFailureDefault(completed))
    ensures app.filter == old(app.filter) && app.theme == old(app.theme)
  {
    if completed {
      cache.Mutate(CompleteTask(id, nowAll, nowCompleted), outcome);
    } else {
      cache.Mutate(IncompleteTask(id), outcome);
    }
    Report(app, outcome, ToggleFailureDefault(completed));
  }

  /** A filter change only sets the filter: no remote call, no cache change,
      error and theme untouched. The buttons offer "all" and "completed". */
  method HandleFilterChange(app: AppState, newFilter: Filter)
    requires newFilter == All || newFilter == Completed
    modifies app
    ensures app.filter == newFilter
    ensures app.errorMessage == old(app.errorMessage) && app.theme == old(app.theme)
  {
    app.SetFilter(newFilter);
  }

  // ---------------------------------------------------------------------
  // Bulk actions
  // ---------------------------------------------------------------------

  datatype BulkAction = CompleteAll | IncompleteAll | DeleteCompleted

  /** The tasks a bulk action works on, drawn from the displayed list:
      the open ones for complete-all, the completed ones otherwise. */
  function BulkTargets(action: BulkAction, tasks: seq<Task>): (r: seq<Task>)
    ensures forall t :: t in r <==> t in tasks && t.completed == (action != CompleteAll)
    ensures forall t :: multiset(r)[t] == if t.completed == (action != CompleteAll) then multiset(tasks)[t] else 0
  {
    WithCompleted(tasks, action != CompleteAll)
  }

  function BulkMutation(action: BulkAction, id: string, now: int): Mutation
  {
    match action
    case CompleteAll => CompleteTask(id, now, now)
    case IncompleteAll => IncompleteTask(id)
    case DeleteCompleted => DeleteTask(id)
  }

  function BulkDefault(action: BulkAction): string
  {
    match action
    case CompleteAll => "Failed to complete all tasks"
    case IncompleteAll => "Failed to mark all tasks as incomplete"
    case DeleteCompleted => "Failed to delete completed tasks"
  }

  /** The error `Promise.all` rejects with, taking the items in order: the
      earliest failure, if any. */
  function FirstFailure(outcomes: seq<Outcome<()>>): (r: Option<ApiError>)
    ensures r.None? <==> forall i :: 0 <= i < |outcomes| ==> outcomes[i].Success?
    ensures r.Some? ==> exists k :: 0 <= k < |outcomes| && outcomes[k] == Failure(r.value)
                                    && forall j :: 0 <= j < k ==> outcomes[j].Success?
    decreases |outcomes|
  {
    if |outcomes| == 0 then None
    else
      var n := |outcomes| - 1;
      var earlier := FirstFailure(outcomes[..n]);
      assert forall j :: 0 <= j < n ==> outcomes[..n][j] == outcomes[j];
      if earlier.Some? then earlier
      else if outcomes[n].Failure? then Some(outcomes[n].error)
      else None
  }

  /** A bulk action leaves at most one message, with its own default; the
      slot is cleared only when every item succeeded. */
  function BulkError(outcomes: seq<Outcome<()>>, action: BulkAction): (r: Option<string>)
    ensures r.None? <==> forall i :: 0 <= i < |outcomes| ==> outcomes[i].Success?
    ensures r.Some? ==> exists k :: 0 <= k < |outcomes| && outcomes[k].Failure?
                                    && r.value == AsyncErrorMessage(outcomes[k].error, BulkDefault(action))
    ensures r.Some? ==> Contains(r.value, BulkDefault(action))
  {
    match FirstFailure(outcomes)
    case None => None
    case Some(e) => Some(AsyncErrorMessage(e, BulkDefault(action)))
  }

  /** The cache after the items of a bulk action have settled, one after
      the other. */
  function BulkEffect(l: Lists, action: BulkAction, targets: seq<Task>, outcomes: seq<Outcome<()>>, now: int): Lists
    requires |outcomes| == |targets|
    decreases |targets|
  {
    if |targets| == 0 then l
    else
      var n := |targets| - 1;
      Settled(BulkEffect(l, action, targets[..n], outcomes[..n], now), BulkMutation(action, targets[n].id, now), outcomes[n].Success?)
  }

  /** A bulk action grows no list, and only delete-completed can shorten
      "all". */
  lemma {:induction false} BulkEffectNeverGrows(l: Lists, action: BulkAction, targets: seq<Task>,
                                                outcomes: seq<Outcome<()>>, now: int)
    requires |outcomes| == |targets|
    ensures var r := BulkEffect(l, action, targets, outcomes, now);
      |r.all| <= |l.all| && |r.completed| <= |l.completed|
      && (action != DeleteCompleted ==> |r.all| == |l.all|)
    decreases |targets|
  {
    if |targets| > 0 {
      var n := |targets| - 1;
      BulkEffectNeverGrows(l, action, targets[..n], outcomes[..n], now);
    }
  }

  /** The targets whose remote call succeeded, in order. */
  function Succeeded(targets: seq<Task>, outcomes: seq<Outcome<()>>): (r: seq<Task>)
    requires |outcomes| == |targets|
    ensures |r| <= |targets|
    decreases |targets|
  {
    if |targets| == 0 then []
    else
      var n := |targets| - 1;
      Succeeded(targets[..n], outcomes[..n]) + (if outcomes[n].Success? then [targets[n]] else [])
  }

  function AllSucceed(k: nat): (r: seq<Outcome<()>>)
    ensures |r| == k && forall i :: 0 <= i < k ==> r[i].Success?
  {
    seq(k, _ => Success(()))
  }

  /** One more settled item on top of a prefix of the targets. */
  lemma BulkEffectStep(l: Lists, action: BulkAction, targets: seq<Task>, outcomes: seq<Outcome<()>>, now: int, i: nat,
                       before: Lists, after: Lists)
    requires |outcomes| == |targets| && i < |targets|
    requires before == BulkEffect(l, action, targets[..i], outcomes[..i], now)
    requires after == Settled(before, BulkMutation(action, targets[i].id, now), outcomes[i].Success?)
    ensures after == BulkEffect(l, action, targets[..i + 1], outcomes[..i + 1], now)
  {
    assert targets[..i + 1][..i] == targets[..i];
    assert outcomes[..i + 1][..i] == outcomes[..i];
  }

  /** Two runs that agree up to their last item, whose last items have the
      same id and the same outcome, leave the same cache. */
  lemma BulkEffectSameLast(l: Lists, action: BulkAction, now: int,
                           t1: seq<Task>, o1: seq<Outcome<()>>, t2: seq<Task>, o2: seq<Outcome<()>>)
    requires |o1| == |t1| > 0 && |o2| == |t2| > 0
    requires BulkEffect(l, action, t1[..|t1| - 1], o1[..|o1| - 1], now)
          == BulkEffect(l, action, t2[..|t2| - 1], o2[..|o2| - 1], now)
    requires t1[|t1| - 1].id == t2[|t2| - 1].id
    requires o1[|o1| - 1].Success? == o2[|o2| - 1].Success?
    ensures BulkEffect(l, action, t1, o1, now) == BulkEffect(l, action, t2, o2, now)
  {
  }

  /** An item that fails is rolled back: the run is as if it were absent. */
  lemma BulkEffectFailedLast(l: Lists, action: BulkAction, targets: seq<Task>, outcomes: seq<Outcome<()>>, now: int)
    requires |outcomes| == |targets| > 0
    requires outcomes[|outcomes| - 1].Failure?
    ensures BulkEffect(l, action, targets, outcomes, now)
         == BulkEffect(l, action, targets[..|targets| - 1], outcomes[..|outcomes| - 1], now)
  {
    var n := |targets| - 1;
    FailureRestoresLists(BulkEffect(l, action, targets[..n], outcomes[..n], now), BulkMutation(action, targets[n].id, now));
  }

  /** An item that succeeds extends a run of successes by that item. */
  lemma BulkEffectSucceededLast(l: Lists, action: BulkAction, now: int,
                                targets: seq<Task>, outcomes: seq<Outcome<()>>, s: seq<Task>)
    requires |outcomes| == |targets| > 0 && outcomes[|outcomes| - 1].Success?
    requires |s| > 0 && s[|s| - 1] == targets[|targets| - 1]
    requires BulkEffect(l, action, targets[..|targets| - 1], outcomes[..|outcomes| - 1], now)
          == BulkEffect(l, action, s[..|s| - 1], AllSucceed(|s| - 1), now)
    ensures BulkEffect(l, action, targets, outcomes, now) == BulkEffect(l, action, s, AllSucceed(|s|), now)
  {
    var ok := AllSucceed(|s|);
    assert ok[..|s| - 1] == AllSucceed(|s| - 1);
    BulkEffectSameLast(l, action, now, targets, outcomes, s, ok);
  }

  /** Partial success: a bulk action leaves the cache as if only the items
      that succeeded had been run; every failed item is rolled back. */
  lemma {:induction false} BulkKeepsOnlySuccesses(l: Lists, action: BulkAction, targets: seq<Task>,
                                                  outcomes: seq<Outcome<()>>, now: int)
    requires |outcomes| == |targets|
    ensures var s := Succeeded(targets, outcomes);
      BulkEffect(l, action, targets, outcomes, now) == BulkEffect(l, action, s, AllSucceed(|s|), now)
    decreases |targets|
  {
    if |targets| > 0 {
      var n := |targets| - 1;
      var prev := Succeeded(targets[..n], outcomes[..n]);
      BulkKeepsOnlySuccesses(l, action, targets[..n], outcomes[..n], now);
      if outcomes[n].Success? {
        var s := prev + [targets[n]];
        assert Succeeded(targets, outcomes) == s;
        assert s[..|s| - 1] == prev;
        BulkEffectSucceededLast(l, action, now, targets, outcomes, s);
      } else {
        assert Succeeded(targets, outcomes) == prev;
        BulkEffectFailedLast(l, action, targets, outcomes, now);
      }
    }
  }

  /** When every item fails, the cache is as it was. */
  lemma AllFailedLeavesCache(l: Lists, action: BulkAction, targets: seq<Task>, outcomes: seq<Outcome<()>>, now: int)
    requires |outcomes| == |targets|
    requires forall i :: 0 <= i < |outcomes| ==> outcomes[i].Failure?
    ensures BulkEffect(l, action, targets, outcomes, now) == l
  {
    BulkKeepsOnlySuccesses(l, action, targets, outcomes, now);
    NothingSucceeded(targets, outcomes);
  }

  lemma {:induction false} NothingSucceeded(targets: seq<Task>, outcomes: seq<Outcome<()>>)
    requires |outcomes| == |targets|
    requires forall i :: 0 <= i < |outcomes| ==> outcomes[i].Failure?
    ensures Succeeded(targets, outcomes) == []
    decreases |targets|
  {
    if |targets| > 0 {
      var n := |targets| - 1;
      NothingSucceeded(targets[..n], outcomes[..n]);
    }
  }

  /** Item `i` of a bulk action: its mutation runs on top of the items
      before it. */
  method SettleOne(cache: TaskCache, action: BulkAction, targets: seq<Task>, now: int, outcomes: seq<Outcome<()>>,
                   i: nat, ghost l0: Lists)
    requires |outcomes| == |targets| && i < |targets|
    requires cache.Contents() == BulkEffect(l0, action, targets[..i], outcomes[..i], now)
    modifies cache
    ensures cache.Contents() == BulkEffect(l0, action, targets[..i + 1], outcomes[..i + 1], now)
  {
    ghost var before := cache.Contents();
    cache.Mutate(BulkMutation(action, targets[i].id, now), outcomes[i]);
    BulkEffectStep(l0, action, targets, outcomes, now, i, before, cache.Contents());
  }

  /** Runs the single-item mutation for each target, one after the other,
      and returns the error `Promise.all` rejects with, if any. */
  method SettleAll(cache: TaskCache, action: BulkAction, targets: seq<Task>, now: int, outcomes: seq<Outcome<()>>)
    returns (failure: Option<ApiError>)
    requires |outcomes| == |targets|
    modifies cache
    ensures cache.Contents() == BulkEffect(old(cache.Contents()), action, targets, outcomes, now)
    ensures failure == FirstFailure(outcomes)
  {
    ghost var l0 := cache.Contents();
    var i := 0;
    while i < |targets|
      invariant 0 <= i <= |targets|
      invariant cache.Contents() == BulkEffect(l0, action, targets[..i], outcomes[..i], now)
    {
      SettleOne(cache, action, targets, now, outcomes, i, l0);
      i := i + 1;
    }
    assert targets[..i] == targets;
    assert outcomes[..i] == outcomes;
    failure := FirstFailure(outcomes);
  }

  /** A bulk handler: the targets are filtered from the shown list, each is
      settled, and the error slot is reported once for the whole action. */
  method RunBulk(cache: TaskCache, app: AppState, action: BulkAction, tasks: seq<Task>,
                 now: int, outcomes: seq<Outcome<()>>)
    requires |outcomes| == |BulkTargets(action, tasks)|
    modifies cache, app
    ensures cache.Contents() == BulkEffect(old(cache.Contents()), action, BulkTargets(action, tasks), outcomes, now)
    ensures app.errorMessage == BulkError(outcomes, action)
    ensures app.filter == old(app.filter) && app.theme == old(app.theme)
  {
    var targets := BulkTargets(action, tasks);
    var failure := SettleAll(cache, action, targets, now, outcomes);
    match failure {
      case None => ClearErrorMessage(app);
      case Some(e) => HandleAsyncError(app, e, BulkDefault(action));
    }
  }

  method HandleCompleteAllTasks(cache: TaskCache, app: AppState, tasks: seq<Task>, now: int, outcomes: seq<Outcome<()>>)
    requires |outcomes| == |BulkTargets(CompleteAll, tasks)|
    modifies cache, app
    ensures cache.Contents() == BulkEffect(old(cache.Contents()), CompleteAll, BulkTargets(CompleteAll, tasks), outcomes, now)
    ensures app.errorMessage == BulkError(outcomes, CompleteAll)
    ensures app.filter == old(app.filter) && app.theme == old(app.theme)
  {
    RunBulk(cache, app, CompleteAll, tasks, now, outcomes);
  }

  method HandleIncompleteAllTasks(cache: TaskCache, app: AppState, tasks: seq<Task>, now: int, outcomes: seq<Outcome<()>>)
    requires |outcomes| == |BulkTargets(IncompleteAll, tasks)|
    modifies cache, app
    ensures cache.Contents() == BulkEffect(old(cache.Contents()), IncompleteAll, BulkTargets(IncompleteAll, tasks), outcomes, now)
    ensures app.errorMessage == BulkError(outcomes, IncompleteAll)
    ensures app.filter == old(app.filter) && app.theme == old(app.theme)
  {
    RunBulk(cache, app, IncompleteAll, tasks, now, outcomes);
  }

  method HandleDeleteCompletedTasks(cache: TaskCache, app: AppState, tasks: seq<Task>, now: int, outcomes: seq<Outcome<()>>)
    requires |outcomes| == |BulkTargets(DeleteCompleted, tasks)|
    modifies cache, app
    ensures cache.Contents() == BulkEffect(old(cache.Contents()), DeleteCompleted, BulkTargets(DeleteCompleted, tasks), outcomes, now)
    ensures app.errorMessage == BulkError(outcomes, DeleteCompleted)
    ensures app.filter == old(app.filter) && app.theme == old(app.theme)
  {
    RunBulk(cache, app, DeleteCompleted, tasks, now, outcomes);
  }

  // ---------------------------------------------------------------------
  // The toggle-all checkbox
  // ---------------------------------------------------------------------

  /** `disabled={loading || tasks.length === 0}` */
  function ToggleAllDisabled(loading: bool, tasks: seq<Task>): (r: bool)
    ensures !r ==> !loading && tasks != []
    ensures r ==> loading || tasks == []
  {
    loading || |tasks| == 0
  }

  /** Checking the box runs complete-all, unchecking it incomplete-all. */
  method HandleToggleAll(cache: TaskCache, app: AppState, checked: bool, tasks: seq<Task>, now: int, outcomes: seq<Outcome<()>>)
    requires |outcomes| == |BulkTargets(if checked then CompleteAll else IncompleteAll, tasks)|
    modifies cache, app
    ensures var action := if checked then CompleteAll else IncompleteAll;
      cache.Contents() == BulkEffect(old(cache.Contents()), action, BulkTargets(action, tasks), outcomes, now)
      && app.errorMessage == BulkError(outcomes, action)
    ensures app.filter == old(app.filter) && app.theme == old(app.theme)
  {
    if checked {
      HandleCompleteAllTasks(cache, app, tasks, now, outcomes);
    } else {
      HandleIncompleteAllTasks(cache, app, tasks, now, outcomes);
    }
  }

  /** The box shows `allCompleted`. When it shows checked, unchecking it
      targets every displayed task and complete-all would have nothing to
      do; when it is enabled and shows unchecked, checking it targets at
      least one open task. */
  lemma ToggleAllWiring(tasks: seq<Task>, loading: bool)
    ensures Stats(tasks).allCompleted ==>
      BulkTargets(IncompleteAll, tasks) == tasks && BulkTargets(CompleteAll, tasks) == []
    ensures !ToggleAllDisabled(loading, tasks) && !Stats(tasks).allCompleted ==>
      BulkTargets(CompleteAll, tasks) != []
    ensures ToggleAllDisabled(loading, tasks) <==> loading || Stats(tasks).totalCount == 0
  {
    if Stats(tasks).allCompleted {
      WithCompletedKeepsAll(tasks, true);
      WithCompletedSplit(tasks);
    }
    if !ToggleAllDisabled(loading, tasks) && !Stats(tasks).allCompleted {
      var i :| 0 <= i < |tasks| && !tasks[i].completed;
      assert tasks[i] in BulkTargets(CompleteAll, tasks);
    }
  }

  // ---------------------------------------------------------------------
  // Loading errors and retry
  // ---------------------------------------------------------------------

  /** The query a retry refetches: "all tasks" for the "all" filter, the
      completed tasks otherwise. */
  function RefetchedQuery(filter: Filter): (r: QueryKind)
    ensures r == AllTasks <==> filter == All
    ensures filter == Incomplete ==> r == CompletedTasks
  {
    if filter == All then AllTasks else CompletedTasks
  }

  /** `handleRefreshData`: a successful refetch replaces the active list
      and clears the error; a failed one keeps the stale list and reports. */
  method HandleRefreshData(cache: TaskCache, app: AppState, filter: Filter, outcome: Outcome<seq<Task>>)
    modifies cache, app
    ensures outcome.Success? ==> cache.List(RefetchedQuery(filter)) == outcome.value
    ensures outcome.Success? && filter == All ==> cache.completed == old(cache.completed)
    ensures outcome.Success? && filter != All ==> cache.all == old(cache.all)
    ensures outcome.Failure? ==> cache.Contents() == old(cache.Contents())
    ensures app.errorMessage == ErrorAfter(outcome, "Failed to refresh data")
    ensures app.filter == old(app.filter) && app.theme == old(app.theme)
  {
    if outcome.Success? {
      cache.Fetched(RefetchedQuery(filter), outcome.value);
    }
    Report(app, outcome, "Failed to refresh data");
  }

  function LoadFailureDefault(filter: Filter): (r: string)
    ensures r == "Failed to load tasks" <==> filter == All
    ensures filter != All ==> r == "Failed to load completed tasks"
  {
    if filter == All then "Failed to load tasks" else "Failed to load completed tasks"
  }

  /** The effect on query errors: the error of the "all" query when the
      filter is "all", of the completed query otherwise, is reported with
      a load-failure default; with no such error nothing happens. */
  method OnQueryError(app: AppState, filter: Filter, allError: Option<ApiError>, completedError: Option<ApiError>)
    modifies app
    ensures var current := if filter == All then allError else completedError;
      app.errorMessage == (if current.Some? then Some(AsyncErrorMessage(current.value, LoadFailureDefault(filter)))
                           else old(app.errorMessage))
    ensures app.filter == old(app.filter) && app.theme == old(app.theme)
  {
    var current := if filter == All then allError else completedError;
    if current.Some? {
      HandleAsyncError(app, current.value, LoadFailureDefault(filter));
    }
  }
}
