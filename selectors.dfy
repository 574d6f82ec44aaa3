/** Values derived from the store: the list the current filter shows,
    whether it is loading, its statistics, and the error to display. */
module Selectors {

  import opened Types
  import opened Strings
  import opened AppSlice

  /** What the store holds for one query: its data (absent until the first
      successful fetch), whether its first fetch is in flight, and its last
      error. */
  datatype QueryState = QueryState(data: Option<seq<Task>>, isLoading: bool, error: Option<ApiError>)

  /** `query.data || []` */
  function TasksData(q: QueryState): (r: seq<Task>)
    ensures q.data.None? ==> r == []
    ensures q.data.Some? ==> r == q.data.value
  {
    if q.data.Some? then q.data.value else []
  }

  /** The query a filter reads: the completed-tasks query for "completed",
      the all-tasks query for "all" and also for "incomplete". */
  function ActiveQuery(filter: Filter, all: QueryState, completed: QueryState): QueryState
  {
    if filter == Completed then completed else all
  }

  /** `selectCurrentTasks`: the list the filter shows. */
  function CurrentTasks(filter: Filter, all: QueryState, completed: QueryState): (r: seq<Task>)
    ensures filter == Completed ==> r == TasksData(completed)
    ensures filter != Completed ==> r == TasksData(all)
  {
    TasksData(ActiveQuery(filter, all, completed))
  }

  /** `selectCurrentLoading`: whether the shown list is loading. */
  function CurrentLoading(filter: Filter, all: QueryState, completed: QueryState): (r: bool)
    ensures filter == Completed ==> (r <==> completed.isLoading)
    ensures filter != Completed ==> (r <==> all.isLoading)
  {
    ActiveQuery(filter, all, completed).isLoading
  }

  /** The shown list and loading flag come from the completed-tasks query
      exactly when the filter is "completed"; the "incomplete" filter shows
      the unfiltered all-tasks list; a query without data shows nothing. */
  lemma CurrentViewSource(filter: Filter, all: QueryState, completed: QueryState)
    ensures filter == Completed ==>
      CurrentTasks(filter, all, completed) == TasksData(completed)
      && CurrentLoading(filter, all, completed) == completed.isLoading
    ensures filter != Completed ==>
      CurrentTasks(filter, all, completed) == TasksData(all)
      && CurrentLoading(filter, all, completed) == all.isLoading
    ensures CurrentTasks(Incomplete, all, completed) == CurrentTasks(All, all, completed)
    ensures ActiveQuery(filter, all, completed).data.None? ==> CurrentTasks(filter, all, completed) == []
  {
  }

  /** `tasks.filter(t => t.completed === status)`. */
  function WithCompleted(tasks: seq<Task>, status: bool): (r: seq<Task>)
    ensures |r| <= |tasks|
    ensures forall i :: 0 <= i < |r| ==> r[i].completed == status
    ensures forall t :: t in r <==> t in tasks && t.completed == status
    ensures forall t :: multiset(r)[t] == if t.completed == status then multiset(tasks)[t] else 0
  {
    if |tasks| == 0 then []
    else
      assert tasks == [tasks[0]] + tasks[1..];
      (if tasks[0].completed == status then [tasks[0]] else []) + WithCompleted(tasks[1..], status)
  }

  /** Every task is either completed or not: the two filters split the list. */
  lemma {:induction false} WithCompletedSplit(tasks: seq<Task>)
    ensures |WithCompleted(tasks, true)| + |WithCompleted(tasks, false)| == |tasks|
  {
    if |tasks| > 0 {
      WithCompletedSplit(tasks[1..]);
    }
  }

  /** A filter that every task passes returns the list itself. */
  lemma {:induction false} WithCompletedKeepsAll(tasks: seq<Task>, status: bool)
    requires forall i :: 0 <= i < |tasks| ==> tasks[i].completed == status
    ensures WithCompleted(tasks, status) == tasks
  {
    if |tasks| > 0 {
      WithCompletedKeepsAll(tasks[1..], status);
      assert tasks == [tasks[0]] + tasks[1..];
    }
  }

  datatype TaskStats = TaskStats(
    totalCount: nat,
    completedCount: nat,
    remainingCount: int,
    allCompleted: bool,
    hasCompleted: bool)

  /** The statistics of a list of tasks. */
  function Stats(tasks: seq<Task>): (s: TaskStats)
    ensures s.totalCount == |tasks|
    ensures 0 <= s.completedCount <= s.totalCount
    ensures s.remainingCount == s.totalCount - s.completedCount
    ensures s.remainingCount == |WithCompleted(tasks, false)|
    ensures s.allCompleted <==> |tasks| > 0 && forall i :: 0 <= i < |tasks| ==> tasks[i].completed
    ensures s.hasCompleted <==> exists i :: 0 <= i < |tasks| && tasks[i].completed
  {
    WithCompletedSplit(tasks);
    var total := |tasks|;
    var done := |WithCompleted(tasks, true)|;
    var open := WithCompleted(tasks, false);
    assert (forall i :: 0 <= i < |tasks| ==> tasks[i].completed) <==> open == [] by {
      if open != [] {
        assert open[0] in tasks;
      } else {
        forall i | 0 <= i < |tasks| ensures tasks[i].completed {
          assert tasks[i] in tasks;
        }
      }
    }
    assert (exists i :: 0 <= i < |tasks| && tasks[i].completed) <==> done > 0 by {
      var closed := WithCompleted(tasks, true);
      if done > 0 {
        assert closed[0] in tasks;
      } else {
        forall i | 0 <= i < |tasks| ensures !tasks[i].completed {
          assert tasks[i] in tasks;
        }
      }
    }
    TaskStats(total, done, total - done, total > 0 && done == total, done > 0)
  }

  /** `selectTaskStats`: the statistics of the list the filter shows. */
  function SelectTaskStats(filter: Filter, all: QueryState, completed: QueryState): (r: TaskStats)
    ensures r.totalCount == |CurrentTasks(filter, all, completed)|
    ensures filter != Completed ==> r == Stats(TasksData(all))
    ensures filter == Completed ==> r == Stats(TasksData(completed))
  {
    Stats(CurrentTasks(filter, all, completed))
  }

  /** The text shown for a query error: "API Error: <status>" when it has
      a status at all, else its message if that is not empty, else a
      generic text. */
  function QueryErrorText(e: ApiError): (r: string)
    ensures r != ""
    ensures e.status.Some? ==> r == "API Error: " + StatusText(e.status.value)
    ensures e.status.None? && Present(e.message) ==> r == e.message.value
    ensures e.status.None? && !Present(e.message) ==> r == "An unexpected error occurred"
  {
    if e.status.Some? then "API Error: " + StatusText(e.status.value)
    else if Present(e.message) then e.message.value
    else "An unexpected error occurred"
  }

  /** The error to display: a non-empty message in the error slot wins;
      otherwise the active query's error, rendered; otherwise none. */
  function DisplayErrorMessage(appError: Option<string>, filter: Filter, all: QueryState, completed: QueryState): (r: Option<string>)
    ensures Present(appError) ==> r == appError
    ensures r.None? <==> !Present(appError) && ActiveQuery(filter, all, completed).error.None?
    ensures r.Some? ==> r.value != ""
    ensures !Present(appError) && ActiveQuery(filter, all, completed).error.Some? ==>
      r == Some(QueryErrorText(ActiveQuery(filter, all, completed).error.value))
  {
    if Present(appError) then appError
    else
      match ActiveQuery(filter, all, completed).error
      case None => None
      case Some(e) => Some(QueryErrorText(e))
  }
}
