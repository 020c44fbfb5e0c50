/** The task list view (app/tasks/page.tsx): the completion ordering, the
    loaded list and its error line, and the toggle and delete handlers. */
module TaskListPage {
  import opened Wrappers
  import opened Types
  import opened Seqs
  import AuthGuard

  const LoadError: string := "Error al cargar las tareas. Tu sesión puede haber expirado."
  const UpdateError: string := "Error al actualizar la tarea."
  const DeleteError: string := "Error al eliminar la tarea."

  /** The sort comparator: 0 for equal completion, incomplete before completed. */
  function CompareCompletion(a: Task, b: Task): (r: int)
    ensures r == 0 <==> a.completada == b.completada
    ensures r == -1 <==> !a.completada && b.completada
    ensures r == 1 <==> a.completada && !b.completada
  {
    if a.completada == b.completada then 0 else if a.completada then 1 else -1
  }

  /** The comparator is a consistent total preorder, as `Array.prototype.sort`
      requires: reflexive, antisymmetric in sign and transitive. */
  lemma ComparatorIsConsistent(a: Task, b: Task, c: Task)
    ensures CompareCompletion(a, a) == 0
    ensures CompareCompletion(a, b) == -CompareCompletion(b, a)
    ensures CompareCompletion(a, b) <= 0 && CompareCompletion(b, c) <= 0 ==> CompareCompletion(a, c) <= 0
  {
  }

  predicate IsPending(t: Task) { !t.completada }

  predicate IsCompleted(t: Task) { t.completada }

  /** Every pair in order compares as non-positive. */
  predicate SortedByCompletion(s: seq<Task>) {
    forall i, j :: 0 <= i < j < |s| ==> CompareCompletion(s[i], s[j]) <= 0
  }

  /** `r` keeps the relative order `s` has within each completion group. */
  predicate StableWith(r: seq<Task>, s: seq<Task>) {
    Filter(r, IsPending) == Filter(s, IsPending) && Filter(r, IsCompleted) == Filter(s, IsCompleted)
  }

  /** The list the stable sort with the completion comparator produces:
      incomplete tasks, then completed ones, each group in its input order. */
  function SortForDisplay(ts: seq<Task>): (r: seq<Task>)
    ensures multiset(r) == multiset(ts)
    ensures |r| == |ts| >= |Filter(ts, IsPending)|
    ensures forall i :: 0 <= i < |Filter(ts, IsPending)| ==> !r[i].completada
    ensures forall i :: |Filter(ts, IsPending)| <= i < |r| ==> r[i].completada
  {
    FilterPartition(ts, IsPending, IsCompleted);
    var r := Filter(ts, IsPending) + Filter(ts, IsCompleted);
    assert |multiset(r)| == |r| && |multiset(ts)| == |ts|;
    r
  }

  /** The display order is a stable sort of the input by the comparator:
      sorted, stable within each group, and a permutation. */
  lemma {:induction false} SortForDisplayIsStableSort(ts: seq<Task>)
    ensures SortedByCompletion(SortForDisplay(ts))
    ensures StableWith(SortForDisplay(ts), ts)
    ensures multiset(SortForDisplay(ts)) == multiset(ts)
  {
    var pending, done := Filter(ts, IsPending), Filter(ts, IsCompleted);
    FilterAppend(pending, done, IsPending);
    FilterAppend(pending, done, IsCompleted);
    FilterKeepsAll(pending, IsPending);
    FilterDropsAll(done, IsPending);
    FilterKeepsAll(done, IsCompleted);
    FilterDropsAll(pending, IsCompleted);
    FilterPartition(ts, IsPending, IsCompleted);
  }

  /** A list sorted by the comparator is its incomplete tasks followed by its
      completed ones. */
  lemma {:induction false} SortedIsPartitioned(r: seq<Task>)
    requires SortedByCompletion(r)
    ensures r == Filter(r, IsPending) + Filter(r, IsCompleted)
  {
    if |r| > 0 {
      var rest := r[1..];
      assert r == [r[0]] + rest;
      if IsPending(r[0]) {
        assert SortedByCompletion(rest) by {
          forall i, j | 0 <= i < j < |rest| ensures CompareCompletion(rest[i], rest[j]) <= 0 {
            assert rest[i] == r[i + 1] && rest[j] == r[j + 1];
          }
        }
        SortedIsPartitioned(rest);
      } else {
        forall i | 0 <= i < |rest| ensures IsCompleted(rest[i]) {
          assert CompareCompletion(r[0], r[i + 1]) <= 0;
        }
        FilterKeepsAll(rest, IsCompleted);
        FilterDropsAll(rest, IsPending);
      }
    }
  }

  /** Any sorted, stable rearrangement of `ts` is exactly the display order:
      modelling the library's stable sort by the partition loses nothing. */
  lemma StableSortIsUnique(ts: seq<Task>, r: seq<Task>)
    requires SortedByCompletion(r) && StableWith(r, ts)
    ensures r == SortForDisplay(ts)
  {
    SortedIsPartitioned(r);
  }

  /** The task as the toggle's `map` callback returns it. */
  function Toggled(t: Task, id: int): (r: Task)
    ensures r == t.(completada := r.completada)
    ensures r.completada != t.completada <==> t.id == id
  {
    if t.id == id then t.(completada := !t.completada) else t
  }

  /** `tasks.map(...)` flipping `completada` on the tasks with the given id. */
  function ToggleById(ts: seq<Task>, id: int): (r: seq<Task>)
    ensures |r| == |ts|
    ensures forall i :: 0 <= i < |ts| ==> r[i] == Toggled(ts[i], id)
  {
    if |ts| == 0 then [] else [Toggled(ts[0], id)] + ToggleById(ts[1..], id)
  }

  /** Toggling the same id twice restores the list; toggling an id no task has
      changes nothing. */
  lemma ToggleByIdInvolution(ts: seq<Task>, id: int)
    ensures ToggleById(ToggleById(ts, id), id) == ts
    ensures (forall i :: 0 <= i < |ts| ==> ts[i].id != id) ==> ToggleById(ts, id) == ts
  {
  }

  /** Toggling changes only the completion flag of matching tasks: every other
      field, and every other task, is kept. */
  lemma ToggleKeepsOtherFields(ts: seq<Task>, id: int, i: int)
    requires 0 <= i < |ts|
    ensures ToggleById(ts, id)[i] == ts[i].(completada := ToggleById(ts, id)[i].completada)
    ensures ToggleById(ts, id)[i].completada == (if ts[i].id == id then !ts[i].completada else ts[i].completada)
  {
  }

  /** The predicate of the delete handler's `filter`. */
  function OtherThan(id: int): Task -> bool {
    (t: Task) => t.id != id
  }

  /** `tasks.filter(t => t.id !== taskId)`. */
  function WithoutId(ts: seq<Task>, id: int): (r: seq<Task>)
    ensures |r| <= |ts|
    ensures forall i :: 0 <= i < |r| ==> r[i].id != id
  {
    Filter(ts, OtherThan(id))
  }

  /** Deleting removes every task with the id and keeps every other task as
      often as it occurred. */
  lemma {:induction false} WithoutIdCounts(ts: seq<Task>, id: int, t: Task)
    ensures multiset(WithoutId(ts, id))[t] == if t.id == id then 0 else multiset(ts)[t]
  {
    if |ts| > 0 {
      WithoutIdCounts(ts[1..], id, t);
      assert ts == [ts[0]] + ts[1..];
    }
  }

  /** Deleting keeps the surviving tasks in order: it commutes with splitting
      the list anywhere. */
  lemma WithoutIdKeepsOrder(a: seq<Task>, b: seq<Task>, id: int)
    ensures WithoutId(a + b, id) == WithoutId(a, id) + WithoutId(b, id)
  {
    FilterAppend(a, b, OtherThan(id));
  }

  /** The list is fetched once the session check is over and only for a
      signed-in session: exactly when the guard shows the page's content. */
  function ShouldFetch(isAuthLoading: bool, isAuthenticated: bool): (b: bool)
    ensures forall storedToken: Option<string> ::
              b <==> AuthGuard.Guard(isAuthLoading, isAuthenticated, storedToken).render == AuthGuard.Children
    ensures b <==> AuthGuard.IntendedGuard(isAuthLoading, isAuthenticated).render == AuthGuard.Children
  {
    !isAuthLoading && isAuthenticated
  }

  datatype TaskPageView = AuthSpinner | TasksSpinner | Content

  /** Render priority: the session check's spinner, then the list's spinner,
      then the content. */
  function RenderTaskPage(isAuthLoading: bool, loadingTasks: bool): (v: TaskPageView)
    ensures v == AuthSpinner <==> isAuthLoading
    ensures v == TasksSpinner <==> !isAuthLoading && loadingTasks
    ensures v == Content <==> !isAuthLoading && !loadingTasks
  {
    if isAuthLoading then AuthSpinner else if loadingTasks then TasksSpinner else Content
  }

  /** The payload of `updateTask`. */
  datatype TaskPayload = TaskPayload(title: string, description: Option<string>, isCompleted: Option<bool>)

  datatype UpdateRequest = UpdateRequest(id: int, payload: TaskPayload)

  /** The state the list view keeps. */
  class TaskList {
    var tasks: seq<Task>
    var loadingTasks: bool
    var error: string

    constructor ()
      ensures tasks == [] && !loadingTasks && error == ""
    {
      tasks, loadingTasks, error := [], false, "";
    }

    /** `fetchTasks` up to its await: the list shows its spinner and the error
        line is cleared. */
    method StartFetch()
      modifies this
      ensures loadingTasks && error == "" && tasks == old(tasks)
    {
      loadingTasks := true;
      error := "";
    }

    /** `fetchTasks` after its await: the fetched list in display order, or the
        old list and the load error; the spinner stops on both paths. */
    method FinishFetch(response: Result<seq<Task>, ApiFailure>)
      modifies this
      ensures !loadingTasks
      ensures response.Success? ==> tasks == SortForDisplay(response.value) && error == old(error)
      ensures response.Failure? ==> tasks == old(tasks) && error == LoadError
    {
      match response {
        case Success(fetched) =>
          tasks := SortForDisplay(fetched);
        case Failure(_) =>
          error := LoadError;
      }
      loadingTasks := false;
    }

    /** `handleToggleCompleted`: ask for the flipped flag with the task's
        current title and description; on success flip the flag locally and
        re-sort, on failure keep the list (no optimistic update). */
    method HandleToggleCompleted(task: Task, response: Result<Task, ApiFailure>) returns (request: UpdateRequest)
      modifies this
      ensures request == UpdateRequest(task.id, TaskPayload(task.titulo, task.descripcion, Some(!task.completada)))
      ensures response.Success? ==>
                tasks == SortForDisplay(ToggleById(old(tasks), task.id)) && error == old(error)
      ensures response.Failure? ==> tasks == old(tasks) && error == UpdateError
      ensures loadingTasks == old(loadingTasks)
    {
      request := UpdateRequest(task.id, TaskPayload(task.titulo, task.descripcion, Some(!task.completada)));
      if response.Success? {
        tasks := SortForDisplay(ToggleById(tasks, task.id));
      } else {
        error := UpdateError;
      }
    }

    /** `handleDelete`: without confirmation nothing is requested or changed;
        otherwise the task is removed on success, or the error is set. */
    method HandleDelete(taskId: int, confirmed: bool, response: Result<(), ApiFailure>)
      returns (deleteRequest: Option<int>)
      modifies this
      ensures deleteRequest == (if confirmed then Some(taskId) else None)
      ensures !confirmed ==> tasks == old(tasks) && error == old(error)
      ensures confirmed && response.Success? ==> tasks == WithoutId(old(tasks), taskId) && error == old(error)
      ensures confirmed && response.Failure? ==> tasks == old(tasks) && error == DeleteError
      ensures loadingTasks == old(loadingTasks)
    {
      if !confirmed {
        return None;
      }
      deleteRequest := Some(taskId);
      if response.Success? {
        tasks := WithoutId(tasks, taskId);
      } else {
        error := DeleteError;
      }
    }
  }

  /** The scenario of a fetched list holding a completed task 1 and an
      incomplete task 2: task 2 is displayed first. */
  method FetchScenario(t1: Task, t2: Task) returns (view: TaskList)
    requires t1.id == 1 && t1.completada && t2.id == 2 && !t2.completada
    ensures view.tasks == [t2, t1] && !view.loadingTasks
  {
    view := new TaskList();
    view.StartFetch();
    view.FinishFetch(Success([t1, t2]));
    assert [t1, t2][1..] == [t2] && [t2][1..] == [];
    assert Filter([t1, t2], IsPending) == [t2];
    assert Filter([t1, t2], IsCompleted) == [t1];
  }
}
