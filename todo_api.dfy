/** The client-side cache of the task API and the optimistic updates the
    five mutations apply to it.

    Two query results are cached: "all tasks" and "completed tasks". Each
    mutation first patches the cached lists in place (the optimistic
    phase), keeps what each patch needs to be undone, waits for the remote
    call, and then either keeps the patches (for a create, after swapping
    the temporary task for the server's one) or undoes all of them. */
module TodoApi {

  import opened Types
  import opened Strings

  // ---------------------------------------------------------------------
  // Specification: the patches as functions on lists of tasks
  // ---------------------------------------------------------------------

  /** Index of the first task with the given id, or -1: what `findIndex`
      returns, and where `find` looks. */
  function FirstIndex(s: seq<Task>, id: string): (r: int)
    ensures -1 <= r < |s|
    ensures 0 <= r ==> s[r].id == id
    ensures 0 <= r ==> forall j :: 0 <= j < r ==> s[j].id != id
    ensures r == -1 ==> forall j :: 0 <= j < |s| ==> s[j].id != id
  {
    if |s| == 0 then -1
    else if s[0].id == id then 0
    else
      var k := FirstIndex(s[1..], id);
      if k == -1 then -1 else k + 1
  }

  /** The field writes a patch makes on the task it found. */
  datatype Edit =
    | SetText(text: string)      // task.text = text
    | MarkComplete(at: int)      // task.completed = true; task.completedDate = at
    | MarkIncomplete             // task.completed = false; delete task.completedDate
    | ReplaceWith(task: Task)    // draft[index] = task

  function Applied(e: Edit, t: Task): Task
  {
    match e
    case SetText(text) => t.(text := text)
    case MarkComplete(at) => t.(completed := true, completedDate := Some(at))
    case MarkIncomplete => t.(completed := false, completedDate := None)
    case ReplaceWith(u) => u
  }

  /** Applies an edit to the first task with the given id, if there is one.
      No element is added or removed and every other element is kept. */
  function EditFirst(s: seq<Task>, id: string, e: Edit): (r: seq<Task>)
    ensures |r| == |s|
    ensures FirstIndex(s, id) == -1 ==> r == s
    ensures forall j :: 0 <= j < |s| && j != FirstIndex(s, id) ==> r[j] == s[j]
  {
    var i := FirstIndex(s, id);
    if i == -1 then s else s[i := Applied(e, s[i])]
  }

  /** Splices out the first task with the given id, if there is one; the
      others keep their order. */
  function RemoveFirst(s: seq<Task>, id: string): (r: seq<Task>)
    ensures FirstIndex(s, id) == -1 ==> r == s
    ensures 0 <= FirstIndex(s, id) ==> |r| == |s| - 1
    ensures forall j :: 0 <= j < |r| && (FirstIndex(s, id) == -1 || j < FirstIndex(s, id)) ==> r[j] == s[j]
    ensures forall j :: 0 <= FirstIndex(s, id) <= j < |r| ==> r[j] == s[j + 1]
  {
    var i := FirstIndex(s, id);
    if i == -1 then s else s[..i] + s[i + 1..]
  }

  /** The ids of a list of tasks, in order. */
  function Ids(s: seq<Task>): (r: seq<string>)
    ensures |r| == |s|
    ensures forall j :: 0 <= j < |s| ==> r[j] == s[j].id
  {
    seq(|s|, j requires 0 <= j < |s| => s[j].id)
  }

  /** The two cached query results. */
  datatype Lists = Lists(all: seq<Task>, completed: seq<Task>)

  datatype QueryKind = AllTasks | CompletedTasks

  /** What patching one cached list returns: enough to undo that patch. */
  datatype PatchResult = PatchResult(query: QueryKind, before: seq<Task>)

  function Undone(l: Lists, p: PatchResult): Lists
  {
    match p.query
    case AllTasks => l.(all := p.before)
    case CompletedTasks => l.(completed := p.before)
  }

  /** The lists after undoing each patch of `patches`, first to last. */
  function Restored(l: Lists, patches: seq<PatchResult>): Lists
    decreases |patches|
  {
    if |patches| == 0 then l
    else Undone(Restored(l, patches[..|patches| - 1]), patches[|patches| - 1])
  }

  /** The id of an optimistically created task: `temp-` and a clock reading. */
  function TempId(clock: int): (r: string)
    ensures "temp-" < r
  {
    "temp-" + IntToString(clock)
  }

  /** Different clock readings give different temporary ids, so the
      commit finds the task its own create added. */
  lemma TempIdInjective(a: int, b: int)
    requires TempId(a) == TempId(b)
    ensures a == b
  {
    assert IntToString(a) == TempId(a)[5..] == TempId(b)[5..] == IntToString(b);
    IntToStringInjective(a, b);
  }

  /** The task a create shows before the server answers. */
  function TempTask(clock: int, text: string, now: int): (t: Task)
    ensures t.id == TempId(clock) && t.text == text && t.createdDate == now
    ensures !t.completed && Consistent(t)
  {
    Task(TempId(clock), text, false, now, None)
  }

  /** The four mutations that patch both lists. */
  datatype Mutation =
    | UpdateTaskText(id: string, text: string)
    | DeleteTask(id: string)
    | CompleteTask(id: string, nowAll: int, nowCompleted: int)
    | IncompleteTask(id: string)

  /** The optimistic phase of a mutation on both lists. */
  function Patched(l: Lists, m: Mutation): (r: Lists)
    ensures |r.all| <= |l.all| && |r.completed| <= |l.completed|
    ensures !m.DeleteTask? ==> |r.all| == |l.all|
    ensures m.UpdateTaskText? || m.CompleteTask? ==> |r.completed| == |l.completed|
  {
    match m
    case UpdateTaskText(id, text) =>
      Lists(EditFirst(l.all, id, SetText(text)), EditFirst(l.completed, id, SetText(text)))
    case DeleteTask(id) =>
      Lists(RemoveFirst(l.all, id), RemoveFirst(l.completed, id))
    case CompleteTask(id, nowAll, nowCompleted) =>
      Lists(EditFirst(l.all, id, MarkComplete(nowAll)), EditFirst(l.completed, id, MarkComplete(nowCompleted)))
    case IncompleteTask(id) =>
      Lists(EditFirst(l.all, id, MarkIncomplete), RemoveFirst(l.completed, id))
  }

  /** What the optimistic phase of a two-list mutation keeps for undoing. */
  function BothPatches(l: Lists): seq<PatchResult>
  {
    [PatchResult(AllTasks, l.all), PatchResult(CompletedTasks, l.completed)]
  }

  /** A two-list mutation once its remote call has settled: the patches
      stay on success and are undone on failure. */
  function Settled(l: Lists, m: Mutation, succeeded: bool): (r: Lists)
    ensures r == l || r == Patched(l, m)
  {
    if succeeded then Patched(l, m)
    else
      var p, ps := Patched(l, m), BothPatches(l);
      assert ps[..1][..0] == [];
      assert Restored(p, ps[..1]) == Undone(p, ps[0]);
      assert Restored(p, ps) == Undone(Undone(p, ps[0]), ps[1]);
      Restored(p, ps)
  }

  /** A create once its remote call has settled: on success the temporary
      task is swapped for the server's task, on failure the patch is undone. */
  function CreateSettled(l: Lists, clock: int, text: string, now: int, outcome: Outcome<Task>): (r: Lists)
    ensures r.completed == l.completed
    ensures |r.all| == |l.all| + (if outcome.Success? then 1 else 0)
  {
    var patched := l.(all := [TempTask(clock, text, now)] + l.all);
    match outcome
    case Success(actual) => patched.(all := EditFirst(patched.all, TempId(clock), ReplaceWith(actual)))
    case Failure(_) =>
      var ps := [PatchResult(AllTasks, l.all)];
      assert ps[..0] == [];
      assert Restored(patched, ps) == Undone(patched, ps[0]);
      Restored(patched, ps)
  }

  // ---------------------------------------------------------------------
  // Properties of the patches
  // ---------------------------------------------------------------------

  /** Update-text rewrites only the text of the first task with the id, in
      each list: ids, completion and dates stay, and so does every other task. */
  lemma UpdateTextChangesOnlyText(s: seq<Task>, id: string, text: string)
    ensures var r := EditFirst(s, id, SetText(text)); var i := FirstIndex(s, id);
      |r| == |s|
      && (forall j :: 0 <= j < |s| && j != i ==> r[j] == s[j])
      && (0 <= i ==> r[i].text == text && r[i] == s[i].(text := text))
  {
  }

  /** Complete and incomplete change no id and no position in either list
      (the completed list is never added to), and update-text does not
      either. */
  lemma EditKeepsIds(s: seq<Task>, id: string, e: Edit)
    requires !e.ReplaceWith?
    ensures Ids(EditFirst(s, id, e)) == Ids(s)
  {
    var r := EditFirst(s, id, e);
    forall j | 0 <= j < |s| ensures Ids(r)[j] == Ids(s)[j] {
      if j == FirstIndex(s, id) {
        assert r[j] == Applied(e, s[j]);
      }
    }
  }

  /** Complete never inserts into the completed list: both lists keep
      their ids in order, and in each the first match is now completed with
      that list's date while keeping its id, text and creation date; every
      other task stays as it was. */
  lemma CompleteNeverInserts(l: Lists, id: string, nowAll: int, nowCompleted: int)
    ensures var p := Patched(l, CompleteTask(id, nowAll, nowCompleted));
      Ids(p.all) == Ids(l.all) && Ids(p.completed) == Ids(l.completed)
      && (forall j :: 0 <= j < |l.all| && j != FirstIndex(l.all, id) ==> p.all[j] == l.all[j])
      && (forall j :: 0 <= j < |l.completed| && j != FirstIndex(l.completed, id) ==> p.completed[j] == l.completed[j])
      && (0 <= FirstIndex(l.all, id) ==>
            p.all[FirstIndex(l.all, id)] == l.all[FirstIndex(l.all, id)].(completed := true, completedDate := Some(nowAll)))
      && (0 <= FirstIndex(l.completed, id) ==>
            p.completed[FirstIndex(l.completed, id)]
              == l.completed[FirstIndex(l.completed, id)].(completed := true, completedDate := Some(nowCompleted)))
  {
    EditKeepsIds(l.all, id, MarkComplete(nowAll));
    EditKeepsIds(l.completed, id, MarkComplete(nowCompleted));
    var p := Patched(l, CompleteTask(id, nowAll, nowCompleted));
    var i, k := FirstIndex(l.all, id), FirstIndex(l.completed, id);
    if 0 <= i {
      assert p.all[i] == Applied(MarkComplete(nowAll), l.all[i]);
    }
    if 0 <= k {
      assert p.completed[k] == Applied(MarkComplete(nowCompleted), l.completed[k]);
    }
  }

  /** Incomplete clears the completion of the first match in "all" and
      takes the first match out of "completed", which shrinks by one
      exactly when the id was there. */
  lemma IncompleteLeavesCompletedList(l: Lists, id: string)
    ensures var p := Patched(l, IncompleteTask(id));
      Ids(p.all) == Ids(l.all)
      && (forall j :: 0 <= j < |l.all| && j != FirstIndex(l.all, id) ==> p.all[j] == l.all[j])
      && (0 <= FirstIndex(l.all, id) ==>
            p.all[FirstIndex(l.all, id)] == l.all[FirstIndex(l.all, id)].(completed := false, completedDate := None))
      && |p.completed| == (if 0 <= FirstIndex(l.completed, id) then |l.completed| - 1 else |l.completed|)
  {
    EditKeepsIds(l.all, id, MarkIncomplete);
    var p := Patched(l, IncompleteTask(id));
    var i := FirstIndex(l.all, id);
    if 0 <= i {
      assert p.all[i] == Applied(MarkIncomplete, l.all[i]);
    }
  }

  /** Every task of `RemoveFirst(s, id)` was already in `s`. */
  lemma RemoveFirstSubset(s: seq<Task>, id: string)
    ensures forall j :: 0 <= j < |RemoveFirst(s, id)| ==> RemoveFirst(s, id)[j] in s
  {
    var r := RemoveFirst(s, id);
    var i := FirstIndex(s, id);
    forall j | 0 <= j < |r| ensures r[j] in s {
      if i == -1 || j < i {
        assert r[j] == s[j];
      } else {
        assert r[j] == s[j + 1];
      }
    }
  }

  /** Each field write keeps "completed exactly when completedDate is set". */
  lemma EditPreservesConsistency(s: seq<Task>, id: string, e: Edit)
    requires AllConsistent(s)
    requires e.ReplaceWith? ==> Consistent(e.task)
    ensures AllConsistent(EditFirst(s, id, e))
  {
    var r := EditFirst(s, id, e);
    forall j | 0 <= j < |r| ensures Consistent(r[j]) {
      if j == FirstIndex(s, id) {
        assert r[j] == Applied(e, s[j]);
      } else {
        assert r[j] == s[j];
      }
    }
  }

  lemma RemovePreservesConsistency(s: seq<Task>, id: string)
    requires AllConsistent(s)
    ensures AllConsistent(RemoveFirst(s, id))
  {
    RemoveFirstSubset(s, id);
    var r := RemoveFirst(s, id);
    forall j | 0 <= j < |r| ensures Consistent(r[j]) {
      var k :| 0 <= k < |s| && s[k] == r[j];
    }
  }

  /** Every patch, and the settled state after success or failure, keeps
      the invariant in both lists, provided it held before. */
  lemma SettledPreservesConsistency(l: Lists, m: Mutation, succeeded: bool)
    requires AllConsistent(l.all) && AllConsistent(l.completed)
    ensures AllConsistent(Patched(l, m).all) && AllConsistent(Patched(l, m).completed)
    ensures AllConsistent(Settled(l, m, succeeded).all) && AllConsistent(Settled(l, m, succeeded).completed)
  {
    FailureRestoresLists(l, m);
    match m
    case UpdateTaskText(id, text) =>
      EditPreservesConsistency(l.all, id, SetText(text));
      EditPreservesConsistency(l.completed, id, SetText(text));
    case DeleteTask(id) =>
      RemovePreservesConsistency(l.all, id);
      RemovePreservesConsistency(l.completed, id);
    case CompleteTask(id, nowAll, nowCompleted) =>
      EditPreservesConsistency(l.all, id, MarkComplete(nowAll));
      EditPreservesConsistency(l.completed, id, MarkComplete(nowCompleted));
    case IncompleteTask(id) =>
      EditPreservesConsistency(l.all, id, MarkIncomplete);
      RemovePreservesConsistency(l.completed, id);
  }

  /** A failed mutation leaves both lists exactly as they were. */
  lemma FailureRestoresLists(l: Lists, m: Mutation)
    ensures Settled(l, m, false) == l
  {
    var p, ps := Patched(l, m), BothPatches(l);
    assert ps[..1][..0] == [];
    assert Restored(p, ps[..1]) == Undone(p, ps[0]);
    assert Restored(p, ps) == Undone(Undone(p, ps[0]), ps[1]);
  }

  /** A created task shows at the front with the temporary id, the given
      text, not completed and without completion date; once the server
      answers it is replaced in place by the server's task, so the list is
      the server's task followed by the old list: no duplicate and no
      temporary task left behind. A failed create changes nothing. */
  lemma CreateSettledShape(l: Lists, clock: int, text: string, now: int, outcome: Outcome<Task>)
    ensures CreateSettled(l, clock, text, now, outcome).completed == l.completed
    ensures outcome.Success? ==> CreateSettled(l, clock, text, now, outcome).all == [outcome.value] + l.all
    ensures outcome.Failure? ==> CreateSettled(l, clock, text, now, outcome) == l
  {
    var temp := TempTask(clock, text, now);
    var s := [temp] + l.all;
    assert FirstIndex(s, temp.id) == 0;
    if outcome.Success? {
      var r := EditFirst(s, temp.id, ReplaceWith(outcome.value));
      assert r == [outcome.value] + l.all;
    } else {
      var patched := l.(all := s);
      var ps := [PatchResult(AllTasks, l.all)];
      assert ps[..|ps| - 1] == [];
      assert Restored(patched, ps) == Undone(patched, ps[0]);
    }
  }

  /** A create keeps "completed exactly when completedDate is set" in both
      lists: the temporary task is open and has no completion date, and the
      server's task, when it keeps the invariant, replaces it. */
  lemma CreatePreservesConsistency(l: Lists, clock: int, text: string, now: int, outcome: Outcome<Task>)
    requires AllConsistent(l.all) && AllConsistent(l.completed)
    requires outcome.Success? ==> Consistent(outcome.value)
    ensures AllConsistent([TempTask(clock, text, now)] + l.all)
    ensures AllConsistent(CreateSettled(l, clock, text, now, outcome).all)
    ensures AllConsistent(CreateSettled(l, clock, text, now, outcome).completed)
  {
    CreateSettledShape(l, clock, text, now, outcome);
    var s := [TempTask(clock, text, now)] + l.all;
    forall j | 0 <= j < |s| ensures Consistent(s[j]) {
      if j > 0 {
        assert s[j] == l.all[j - 1];
      }
    }
    if outcome.Success? {
      var r := [outcome.value] + l.all;
      forall j | 0 <= j < |r| ensures Consistent(r[j]) {
        if j > 0 {
          assert r[j] == l.all[j - 1];
        }
      }
    }
  }

  /** No temporary id leaks: after a confirmed create, a task has the
      temporary id only if the server gave it that id or it was already
      there. */
  lemma CreateLeavesNoTempId(l: Lists, clock: int, text: string, now: int, actual: Task)
    requires actual.id != TempId(clock)
    requires forall j :: 0 <= j < |l.all| ==> l.all[j].id != TempId(clock)
    ensures var r := CreateSettled(l, clock, text, now, Success(actual)).all;
      |r| == |l.all| + 1 && forall j :: 0 <= j < |r| ==> r[j].id != TempId(clock)
  {
    CreateSettledShape(l, clock, text, now, Success(actual));
    var r := CreateSettled(l, clock, text, now, Success(actual)).all;
    forall j | 0 <= j < |r| ensures r[j].id != TempId(clock) {
      if j > 0 {
        assert r[j] == l.all[j - 1];
      }
    }
  }

  /** The create confirmation on its own: the first task with the
      temporary id is replaced by the server's task, with nothing else
      changed; without such a task nothing changes. */
  lemma CommitReplacesInPlace(s: seq<Task>, tempId: string, actual: Task)
    ensures var r := EditFirst(s, tempId, ReplaceWith(actual)); var i := FirstIndex(s, tempId);
      |r| == |s|
      && (i == -1 ==> r == s)
      && (0 <= i ==> r == s[..i] + [actual] + s[i + 1..])
  {
    var r := EditFirst(s, tempId, ReplaceWith(actual));
    var i := FirstIndex(s, tempId);
    if 0 <= i {
      assert r == s[i := actual];
    }
  }

  // ---------------------------------------------------------------------
  // The cache itself
  // ---------------------------------------------------------------------

  /** `draft.findIndex(t => t.id === id)` */
  method FindIndex(draft: seq<Task>, id: string) returns (index: int)
    ensures index == FirstIndex(draft, id)
  {
    index := 0;
    while index < |draft|
      invariant 0 <= index <= |draft|
      invariant forall j :: 0 <= j < index ==> draft[j].id != id
    {
      if draft[index].id == id {
        return;
      }
      index := index + 1;
    }
    index := -1;
  }

  class TaskCache {
    var all: seq<Task>
    var completed: seq<Task>

    function Contents(): Lists
      reads this
    {
      Lists(all, completed)
    }

    constructor (initial: Lists)
      ensures Contents() == initial
    {
      all := initial.all;
      completed := initial.completed;
    }

    function List(q: QueryKind): seq<Task>
      reads this
    {
      match q
      case AllTasks => all
      case CompletedTasks => completed
    }

    method SetList(q: QueryKind, s: seq<Task>)
      modifies this
      ensures all == (if q == AllTasks then s else old(all))
      ensures completed == (if q == CompletedTasks then s else old(completed))
    {
      match q
      case AllTasks => all := s;
      case CompletedTasks => completed := s;
    }

    /** A successful fetch replaces the cached list of its query. */
    method Fetched(q: QueryKind, data: seq<Task>)
      modifies this
      ensures List(q) == data
      ensures q == AllTasks ==> completed == old(completed)
      ensures q == CompletedTasks ==> all == old(all)
    {
      SetList(q, data);
    }

    /** `updateQueryData(q, draft => { const task = draft.find(...); if (task) { ... } })` */
    method EditList(q: QueryKind, id: string, e: Edit) returns (patch: PatchResult)
      modifies this
      ensures patch == PatchResult(q, old(List(q)))
      ensures List(q) == EditFirst(old(List(q)), id, e)
      ensures q == AllTasks ==> completed == old(completed)
      ensures q == CompletedTasks ==> all == old(all)
    {
      var draft := List(q);
      patch := PatchResult(q, draft);
      var index := FindIndex(draft, id);
      if index != -1 {
        draft := draft[index := Applied(e, draft[index])];
      }
      SetList(q, draft);
    }

    /** `updateQueryData(q, draft => { const i = draft.findIndex(...); if (i !== -1) draft.splice(i, 1); })` */
    method RemoveFromList(q: QueryKind, id: string) returns (patch: PatchResult)
      modifies this
      ensures patch == PatchResult(q, old(List(q)))
      ensures List(q) == RemoveFirst(old(List(q)), id)
      ensures q == AllTasks ==> completed == old(completed)
      ensures q == CompletedTasks ==> all == old(all)
    {
      var draft := List(q);
      patch := PatchResult(q, draft);
      var index := FindIndex(draft, id);
      if index != -1 {
        draft := draft[..index] + draft[index + 1..];
      }
      SetList(q, draft);
    }

    /** The optimistic phase of a create: `draft.unshift(tempTask)` on "all". */
    method PatchCreate(tempTask: Task) returns (patch: PatchResult)
      modifies this
      ensures patch == PatchResult(AllTasks, old(all))
      ensures all == [tempTask] + old(all)
      ensures completed == old(completed)
    {
      patch := PatchResult(AllTasks, all);
      all := [tempTask] + all;
    }

    /** The commit phase of a create: the first task with the temporary id,
        if any, is replaced by the server's task. */
    method CommitCreate(tempId: string, actual: Task)
      modifies this
      ensures all == EditFirst(old(all), tempId, ReplaceWith(actual))
      ensures completed == old(completed)
    {
      var _ := EditList(AllTasks, tempId, ReplaceWith(actual));
    }

    /** `patchResults.forEach(patch => patch.undo())`: each patch puts back
        the list it had patched, as it was before the patch. */
    method Undo(patches: seq<PatchResult>)
      modifies this
      ensures Contents() == Restored(old(Contents()), patches)
    {
      var k := 0;
      while k < |patches|
        invariant 0 <= k <= |patches|
        invariant Contents() == Restored(old(Contents()), patches[..k])
      {
        assert patches[..k + 1][..k] == patches[..k];
        SetList(patches[k].query, patches[k].before);
        k := k + 1;
      }
      assert patches[..|patches|] == patches;
    }

    /** `createTask`'s optimistic protocol: prepend a temporary task, then
        replace it by the server's task or undo the prepend. */
    method CreateTask(text: string, clock: int, now: int, outcome: Outcome<Task>)
      modifies this
      ensures Contents() == CreateSettled(old(Contents()), clock, text, now, outcome)
    {
      var temp := TempTask(clock, text, now);
      var patch := PatchCreate(temp);
      match outcome
      case Success(actual) =>
        CommitCreate(temp.id, actual);
      case Failure(_) =>
        Undo([patch]);
        assert [patch][..|[patch]| - 1] == [];
        CreateSettledShape(old(Contents()), clock, text, now, outcome);
    }

    /** The optimistic phase of the two-list mutations: patch "all", then
        "completed", keeping both patch results in that order. */
    method Patch(m: Mutation) returns (patches: seq<PatchResult>)
      modifies this
      ensures patches == BothPatches(old(Contents()))
      ensures Contents() == Patched(old(Contents()), m)
    {
      var pa, pc;
      match m {
      case UpdateTaskText(id, text) =>
        pa := EditList(AllTasks, id, SetText(text));
        pc := EditList(CompletedTasks, id, SetText(text));
      case DeleteTask(id) =>
        pa := RemoveFromList(AllTasks, id);
        pc := RemoveFromList(CompletedTasks, id);
      case CompleteTask(id, nowAll, nowCompleted) =>
        pa := EditList(AllTasks, id, MarkComplete(nowAll));
        pc := EditList(CompletedTasks, id, MarkComplete(nowCompleted));
      case IncompleteTask(id) =>
        pa := EditList(AllTasks, id, MarkIncomplete);
        pc := RemoveFromList(CompletedTasks, id);
      }
      patches := [pa, pc];
    }

    /** `updateTaskText`, `deleteTask`, `completeTask` and `incompleteTask`:
        patch both lists, then keep the patches or undo them all. */
    method Mutate(m: Mutation, outcome: Outcome<()>)
      modifies this
      ensures Contents() == Settled(old(Contents()), m, outcome.Success?)
    {
      var patches := Patch(m);
      if outcome.Failure? {
        Undo(patches);
      }
    }
  }
}
