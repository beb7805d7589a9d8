/**
 * The task list (`src/components/Tasks/TaskList.tsx`): the status cycle,
 * toggling one task by id, and the status filter.
 */
module TaskList {
  import opened Common

  datatype TaskStatus = Pending | InProgress | Completed

  datatype Priority = High | Medium | Low

  datatype Assignee = Assignee(name: string, avatar: string)

  datatype Task = Task(
    id: string,
    title: string,
    description: string,
    dueDate: string,
    priority: Priority,
    status: TaskStatus,
    assignee: Assignee)

  /** The `nextStatus` table. */
  function NextStatus(s: TaskStatus): (r: TaskStatus)
    ensures r != s
  {
    match s
    case Pending => InProgress
    case InProgress => Completed
    case Completed => Pending
  }

  /** The statuses form one cycle of length three. */
  lemma NextStatusCycle(s: TaskStatus)
    ensures NextStatus(NextStatus(s)) != s
    ensures NextStatus(NextStatus(NextStatus(s))) == s
  {
  }

  /** `toggleTaskStatus`: advance the status of every task with id `id`. */
  function ToggleTaskStatus(tasks: seq<Task>, id: string): (r: seq<Task>)
    ensures |r| == |tasks|
    ensures forall i :: 0 <= i < |r| && tasks[i].id != id ==> r[i] == tasks[i]
    ensures forall i :: 0 <= i < |r| && tasks[i].id == id ==>
      r[i] == tasks[i].(status := NextStatus(tasks[i].status))
    decreases |tasks|
  {
    if tasks == [] then []
    else
      var t := tasks[0];
      [if t.id == id then t.(status := NextStatus(t.status)) else t] + ToggleTaskStatus(tasks[1..], id)
  }

  /** Toggling an id that no task carries changes nothing. */
  lemma ToggleUnknownId(tasks: seq<Task>, id: string)
    requires forall t :: t in tasks ==> t.id != id
    ensures ToggleTaskStatus(tasks, id) == tasks
  {
    var r := ToggleTaskStatus(tasks, id);
    assert forall i :: 0 <= i < |r| ==> r[i] == tasks[i];
  }

  /** Three toggles of the same id give back the original list. */
  lemma ToggleThreeTimes(tasks: seq<Task>, id: string)
    ensures ToggleTaskStatus(ToggleTaskStatus(ToggleTaskStatus(tasks, id), id), id) == tasks
  {
    var r1 := ToggleTaskStatus(tasks, id);
    var r2 := ToggleTaskStatus(r1, id);
    var r3 := ToggleTaskStatus(r2, id);
    forall i | 0 <= i < |tasks| ensures r3[i] == tasks[i] {
      NextStatusCycle(tasks[i].status);
    }
  }

  datatype TaskFilter = All | Only(status: TaskStatus)

  predicate Shows(f: TaskFilter, t: Task) {
    f.All? || t.status == f.status
  }

  /** `filteredTasks`. */
  function FilteredTasks(tasks: seq<Task>, f: TaskFilter): seq<Task> {
    Filter(tasks, (t: Task) => Shows(f, t))
  }

  lemma FilteredTasksSpec(tasks: seq<Task>, f: TaskFilter)
    ensures f.All? ==> FilteredTasks(tasks, f) == tasks
    ensures f.Only? ==> forall t :: t in FilteredTasks(tasks, f) <==> t in tasks && t.status == f.status
    ensures f.Only? ==> forall t :: multiset(FilteredTasks(tasks, f))[t]
                                    == if t.status == f.status then multiset(tasks)[t] else 0
    ensures IsSubsequence(FilteredTasks(tasks, f), tasks)
  {
    FilterMultiplicity(tasks, (t: Task) => Shows(f, t));
    FilterIsSubsequence(tasks, (t: Task) => Shows(f, t));
    if f.All? {
      FilterKeepsAll(tasks, (t: Task) => Shows(f, t));
    }
  }
}
