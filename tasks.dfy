/** The task list (src/components/portal/TasksView.tsx): tasks are added at
    the front, toggled through a three-step status cycle, deleted by id,
    filtered by status and counted per status. */
module Tasks {
  import opened Wrappers
  import opened Text
  import opened Data
  import Seqs

  /** The order `toggleTask` moves a task's status along. */
  const StatusCycle: seq<TaskStatus> := [TaskStatus.Pending, InProgress, Completed]

  /** `statusCycle.indexOf(status)`. */
  function CycleIndex(s: TaskStatus): (i: nat)
    ensures i < |StatusCycle| && StatusCycle[i] == s
  {
    match s
    case Pending => 0
    case InProgress => 1
    case Completed => 2
  }

  /** The status after one toggle. */
  function NextStatus(s: TaskStatus): (r: TaskStatus)
    ensures r != s
    ensures s == TaskStatus.Pending ==> r == InProgress
    ensures s == InProgress ==> r == Completed
    ensures s == Completed ==> r == TaskStatus.Pending
  {
    StatusCycle[(CycleIndex(s) + 1) % |StatusCycle|]
  }

  /** Three toggles bring a task back to the status it started from. */
  lemma ThreeTogglesRestore(s: TaskStatus)
    ensures NextStatus(NextStatus(NextStatus(s))) == s
  {
  }

  /** The task `addTask` creates: pending, medium priority. */
  function NewTask(id: int, title: string): Task
  {
    Task(id, title, TaskStatus.Pending, Some(Medium), None, None)
  }

  /** The list after `addTask` with input text `title` and timestamp `now`. */
  function Added(tasks: seq<Task>, title: string, now: int): (r: seq<Task>)
    ensures IsBlank(title) ==> r == tasks
    ensures !IsBlank(title) ==> |r| == |tasks| + 1 && r[1..] == tasks
    ensures !IsBlank(title) ==> r[0].id == now && r[0].title == title
    ensures !IsBlank(title) ==> r[0].status == TaskStatus.Pending && r[0].priority == Some(Medium)
  {
    if IsBlank(title) then tasks else [NewTask(now, title)] + tasks
  }

  function ToggleOne(t: Task, id: int): Task
  {
    if t.id == id then t.(status := NextStatus(t.status)) else t
  }

  /** The list after `toggleTask(id)`. */
  function Toggled(tasks: seq<Task>, id: int): (r: seq<Task>)
    ensures |r| == |tasks|
    ensures forall i :: 0 <= i < |r| && tasks[i].id != id ==> r[i] == tasks[i]
    ensures forall i :: 0 <= i < |r| && tasks[i].id == id ==>
              r[i] == tasks[i].(status := NextStatus(tasks[i].status))
  {
    seq(|tasks|, i requires 0 <= i < |tasks| => ToggleOne(tasks[i], id))
  }

  /** The list after `deleteTask(id)`. */
  function Deleted(tasks: seq<Task>, id: int): (r: seq<Task>)
    ensures forall i :: 0 <= i < |r| ==> r[i].id != id
  {
    Seqs.Filter(tasks, (t: Task) => t.id != id)
  }

  /** Deleting keeps exactly the tasks with another id, in their order. */
  lemma DeletedKeepsOthers(tasks: seq<Task>, id: int, t: Task)
    ensures t in Deleted(tasks, id) <==> t in tasks && t.id != id
    ensures Seqs.IsSubsequence(Deleted(tasks, id), tasks)
  {
    Seqs.FilterMembership(tasks, (t: Task) => t.id != id, t);
    Seqs.FilterIsSubsequence(tasks, (t: Task) => t.id != id);
  }

  /** The filter buttons: every task, or the tasks of one status. */
  datatype TaskFilter = All | Only(status: TaskStatus)

  /** `filteredTasks`. */
  function Filtered(tasks: seq<Task>, f: TaskFilter): (r: seq<Task>)
    ensures f == All ==> r == tasks
  {
    match f
    case All => tasks
    case Only(s) => Seqs.Filter(tasks, (t: Task) => t.status == s)
  }

  /** A status filter shows exactly the tasks of that status, in order. */
  lemma FilteredByStatus(tasks: seq<Task>, s: TaskStatus, t: Task)
    ensures t in Filtered(tasks, Only(s)) <==> t in tasks && t.status == s
    ensures Seqs.IsSubsequence(Filtered(tasks, Only(s)), tasks)
  {
    Seqs.FilterMembership(tasks, (t: Task) => t.status == s, t);
    Seqs.FilterIsSubsequence(tasks, (t: Task) => t.status == s);
  }

  datatype Stats = Stats(total: nat, pending: nat, inProgress: nat, completed: nat)

  function CountStatus(tasks: seq<Task>, s: TaskStatus): nat
  {
    Seqs.Count(tasks, (t: Task) => t.status == s)
  }

  /** `stats`. */
  function TaskStats(tasks: seq<Task>): (r: Stats)
    ensures r.total == |tasks|
    ensures r.pending + r.inProgress + r.completed == r.total
  {
    StatusesPartition(tasks);
    Stats(|tasks|, CountStatus(tasks, TaskStatus.Pending), CountStatus(tasks, InProgress),
          CountStatus(tasks, Completed))
  }

  /** Every task has exactly one of the three statuses. */
  lemma StatusesPartition(tasks: seq<Task>)
    ensures CountStatus(tasks, TaskStatus.Pending) + CountStatus(tasks, InProgress)
            + CountStatus(tasks, Completed) == |tasks|
  {
    Seqs.ThreeWayCount(tasks, (t: Task) => t.status == TaskStatus.Pending,
                       (t: Task) => t.status == InProgress, (t: Task) => t.status == Completed);
  }

  /** Adding a task raises the total and the pending count by one. */
  lemma AddedStats(tasks: seq<Task>, title: string, now: int)
    requires !IsBlank(title)
    ensures TaskStats(Added(tasks, title, now)).total == TaskStats(tasks).total + 1
    ensures TaskStats(Added(tasks, title, now)).pending == TaskStats(tasks).pending + 1
    ensures TaskStats(Added(tasks, title, now)).inProgress == TaskStats(tasks).inProgress
    ensures TaskStats(Added(tasks, title, now)).completed == TaskStats(tasks).completed
  {
    var r := Added(tasks, title, now);
    assert r == [r[0]] + tasks;
    Seqs.FilterCons(r[0], tasks, (t: Task) => t.status == TaskStatus.Pending);
    Seqs.FilterCons(r[0], tasks, (t: Task) => t.status == InProgress);
    Seqs.FilterCons(r[0], tasks, (t: Task) => t.status == Completed);
  }

  /** Adding with an unused id, toggling and deleting all keep task ids
      distinct. */
  lemma HandlersKeepIdsUnique(tasks: seq<Task>, title: string, now: int, id: int)
    requires UniqueIds(Ids(tasks, (t: Task) => t.id))
    requires forall i :: 0 <= i < |tasks| ==> tasks[i].id != now
    ensures UniqueIds(Ids(Added(tasks, title, now), (t: Task) => t.id))
    ensures UniqueIds(Ids(Toggled(tasks, id), (t: Task) => t.id))
    ensures UniqueIds(Ids(Deleted(tasks, id), (t: Task) => t.id))
  {
    if !IsBlank(title) {
      PrependKeepsUniqueIds(NewTask(now, title), tasks, (t: Task) => t.id);
    }
    assert Ids(Toggled(tasks, id), (t: Task) => t.id) == Ids(tasks, (t: Task) => t.id);
    FilterKeepsUniqueIds(tasks, (t: Task) => t.id != id, (t: Task) => t.id);
  }

  /** The view's state: the task list and the text of the new-task input. */
  class TasksView {
    var tasks: seq<Task>
    var newTask: string
    var filter: TaskFilter

    /** The list saved earlier, or the default tasks when there is none. */
    constructor(saved: Option<seq<Task>>)
      ensures tasks == saved.GetOr(DefaultTasks) && newTask == "" && filter == All
    {
      tasks := saved.GetOr(DefaultTasks);
      newTask := "";
      filter := All;
    }

    method SetNewTask(text: string)
      modifies this
      ensures tasks == old(tasks) && newTask == text && filter == old(filter)
    {
      newTask := text;
    }

    method SetFilter(f: TaskFilter)
      modifies this
      ensures tasks == old(tasks) && newTask == old(newTask) && filter == f
    {
      filter := f;
    }

    /** `addTask`: a blank input changes nothing; otherwise the task is put
        in front and the input is cleared. */
    method AddTask(now: int)
      modifies this
      ensures tasks == Added(old(tasks), old(newTask), now)
      ensures newTask == if IsBlank(old(newTask)) then old(newTask) else ""
      ensures filter == old(filter)
    {
      if IsBlank(newTask) {
        return;
      }
      tasks := [NewTask(now, newTask)] + tasks;
      newTask := "";
    }

    method ToggleTask(id: int)
      modifies this
      ensures tasks == Toggled(old(tasks), id)
      ensures newTask == old(newTask) && filter == old(filter)
    {
      tasks := Toggled(tasks, id);
    }

    method DeleteTask(id: int)
      modifies this
      ensures tasks == Deleted(old(tasks), id)
      ensures newTask == old(newTask) && filter == old(filter)
    {
      tasks := Deleted(tasks, id);
    }

    function FilteredTasks(): seq<Task>
      reads this
    {
      Filtered(tasks, filter)
    }

    function Summary(): Stats
      reads this
    {
      TaskStats(tasks)
    }
  }
}
