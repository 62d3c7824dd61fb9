/** The tasks page: a client-side list of tasks with a search box and two
    filters, a split by status, counters, and the add / change-status / delete
    handlers. Its statuses are 'pending', 'in-progress' and 'completed' (the API
    route says 'todo' where this page says 'pending'). */
module TasksPage {
  import opened Common

  datatype Status = Pending | InProgress | Completed

  /** A task as the page holds it. Priority and category are strings: the page
      casts the draft's priority without checking it. */
  datatype Task = Task(
    id: string,
    title: string,
    description: string,
    dueDate: string,
    priority: string,
    status: Status,
    category: string,
    progress: int)

  /** The add-task dialog's fields. */
  datatype Draft = Draft(title: string, description: string, dueDate: string, priority: string, category: string)

  /** The dialog's fields when it opens and after a task is added. */
  const EmptyDraft: Draft := Draft("", "", "", "medium", "Computer Science")

  // ---------------------------------------------------------------------------
  // Derived lists

  /** The search text occurs in the title or the description, ignoring case. */
  predicate MatchesSearch(t: Task, search: string)
  {
    ContainsIgnoreCase(t.title, search) || ContainsIgnoreCase(t.description, search)
  }

  /** The three tests of `filteredTasks`; 'all' and 'All' switch off a filter. */
  predicate Shown(t: Task, search: string, filterPriority: string, filterCategory: string)
  {
    && MatchesSearch(t, search)
    && (filterPriority == "all" || t.priority == filterPriority)
    && (filterCategory == "All" || t.category == filterCategory)
  }

  function ShownFilter(search: string, filterPriority: string, filterCategory: string): Task -> bool
  {
    (t: Task) => Shown(t, search, filterPriority, filterCategory)
  }

  /** `filteredTasks`: the tasks passing all three tests, in list order. */
  function FilteredTasks(tasks: seq<Task>, search: string, filterPriority: string, filterCategory: string)
    : (r: seq<Task>)
    ensures Subsequence(r, tasks)
    ensures forall k :: 0 <= k < |r| ==> r[k] in tasks && Shown(r[k], search, filterPriority, filterCategory)
    ensures forall k :: 0 <= k < |tasks| && Shown(tasks[k], search, filterPriority, filterCategory) ==> tasks[k] in r
    ensures KeepsCounts(r, tasks, ShownFilter(search, filterPriority, filterCategory))
  {
    FilterIsSubsequence(tasks, ShownFilter(search, filterPriority, filterCategory));
    FilterCounts(tasks, ShownFilter(search, filterPriority, filterCategory));
    Filter(tasks, ShownFilter(search, filterPriority, filterCategory))
  }

  /** With an empty search and both filters off, every task is shown. */
  lemma NoFilterShowsAll(tasks: seq<Task>)
    ensures FilteredTasks(tasks, "", "all", "All") == tasks
  {
    forall t: Task ensures ShownFilter("", "all", "All")(t) {
      ContainsEmpty(t.title);
    }
    FilterPassAll(tasks, ShownFilter("", "all", "All"));
  }

  function StatusIs(s: Status): Task -> bool
  {
    (t: Task) => t.status == s
  }

  /** One of the three lists of `tasksByStatus`. */
  function Bucket(tasks: seq<Task>, s: Status): (r: seq<Task>)
    ensures forall k :: 0 <= k < |r| ==> r[k].status == s && r[k] in tasks
    ensures forall k :: 0 <= k < |tasks| && tasks[k].status == s ==> tasks[k] in r
    ensures KeepsCounts(r, tasks, StatusIs(s))
    ensures Subsequence(r, tasks)
  {
    FilterIsSubsequence(tasks, StatusIs(s));
    FilterCounts(tasks, StatusIs(s));
    Filter(tasks, StatusIs(s))
  }

  /** `tasksByStatus` splits a list: every task is in the bucket of its status and
      in no other, and the three bucket sizes add up to the list's length. */
  lemma {:induction false} BucketsPartition(tasks: seq<Task>)
    ensures |Bucket(tasks, Pending)| + |Bucket(tasks, InProgress)| + |Bucket(tasks, Completed)| == |tasks|
    ensures forall k :: 0 <= k < |tasks| ==> tasks[k] in Bucket(tasks, tasks[k].status)
    ensures forall k, s :: 0 <= k < |tasks| && s != tasks[k].status ==> tasks[k] !in Bucket(tasks, s)
    decreases |tasks|
  {
    if tasks != [] {
      BucketsPartition(tasks[1..]);
      assert Bucket(tasks, Pending) == Filter(tasks, StatusIs(Pending));
    }
  }

  datatype TaskStats = TaskStats(total: nat, completed: nat, inProgress: nat)

  /** The counters above the list (the overdue counter needs the clock and is
      not modelled). */
  function Stats(tasks: seq<Task>): (r: TaskStats)
    ensures r.total == |tasks|
    ensures r.completed + r.inProgress <= r.total
    ensures r.completed == |Bucket(tasks, Completed)| && r.inProgress == |Bucket(tasks, InProgress)|
  {
    BucketsPartition(tasks);
    TaskStats(|tasks|, |Filter(tasks, StatusIs(Completed))|, |Filter(tasks, StatusIs(InProgress))|)
  }

  // ---------------------------------------------------------------------------
  // Transitions

  /** The task `addTask` builds from the dialog: pending, no progress, with the
      draft's fields and defaults for an empty description, due date or category. */
  function NewTask(d: Draft, id: string, today: string): (t: Task)
    ensures t.id == id && t.title == d.title && t.status == Pending && t.progress == 0
    ensures t.description == d.description
    ensures t.dueDate == (if d.dueDate == "" then today else d.dueDate)
    ensures t.category == (if d.category == "" then "Computer Science" else d.category)
    ensures t.priority == d.priority
  {
    Task(
      id,
      d.title,
      d.description,
      if d.dueDate == "" then today else d.dueDate,
      d.priority,
      Pending,
      if d.category == "" then "Computer Science" else d.category,
      0)
  }

  /** A status change: the status is set, and progress becomes 100 when the new
      status is completed and is kept otherwise. */
  function SetStatus(t: Task, s: Status): (r: Task)
    ensures r.status == s
    ensures r.progress == (if s == Completed then 100 else t.progress)
    ensures r.(status := t.status, progress := t.progress) == t
  {
    t.(status := s, progress := if s == Completed then 100 else t.progress)
  }

  function IdIs(id: string): Task -> bool
  {
    (t: Task) => t.id == id
  }

  /** `updateTaskStatus`: every task with the id gets the status; the others and
      the length stay as they were. */
  function WithStatus(tasks: seq<Task>, id: string, s: Status): (r: seq<Task>)
    ensures |r| == |tasks|
    ensures forall k :: 0 <= k < |tasks| && tasks[k].id == id ==> r[k] == SetStatus(tasks[k], s)
    ensures forall k :: 0 <= k < |tasks| && tasks[k].id != id ==> r[k] == tasks[k]
  {
    MapWhere(tasks, IdIs(id), (t: Task) => SetStatus(t, s))
  }

  /** The test `deleteTask` filters with. */
  function IdIsNot(id: string): Task -> bool
  {
    (t: Task) => t.id != id
  }

  /** `deleteTask`: every task with the id goes, the others stay in order. */
  function WithoutId(tasks: seq<Task>, id: string): (r: seq<Task>)
    ensures Subsequence(r, tasks)
    ensures forall k :: 0 <= k < |r| ==> r[k].id != id
    ensures forall k :: 0 <= k < |tasks| && tasks[k].id != id ==> tasks[k] in r
    ensures KeepsCounts(r, tasks, IdIsNot(id))
  {
    FilterIsSubsequence(tasks, IdIsNot(id));
    FilterCounts(tasks, IdIsNot(id));
    Filter(tasks, IdIsNot(id))
  }

  /** The status the row's checkbox asks for: completed goes back to pending,
      anything else becomes completed. */
  function CheckboxTarget(s: Status): (r: Status)
    ensures r == Completed <==> s != Completed
    ensures r != InProgress
  {
    if s == Completed then Pending else Completed
  }

  /** Ticking a task's checkbox and unticking it again leaves it pending with
      progress 100: un-completing does not restore the old progress. */
  lemma CheckboxTwice(t: Task)
    requires t.status != Completed
    ensures var once := SetStatus(t, CheckboxTarget(t.status));
            var twice := SetStatus(once, CheckboxTarget(once.status));
            twice.status == Pending && twice.progress == 100
  {
  }

  /** The page's state that its handlers change. */
  class TasksPageState {
    var tasks: seq<Task>
    var draft: Draft
    var isAddDialogOpen: bool

    /** `addTask`: with an empty title nothing happens; otherwise the new task goes
        in front of the list, the dialog's fields are cleared and it closes. */
    method AddTask(id: string, today: string)
      modifies this
      ensures old(draft.title) == "" ==>
        tasks == old(tasks) && draft == old(draft) && isAddDialogOpen == old(isAddDialogOpen)
      ensures old(draft.title) != "" ==>
        && tasks == [NewTask(old(draft), id, today)] + old(tasks)
        && |tasks| == |old(tasks)| + 1 && tasks[1..] == old(tasks)
        && draft == EmptyDraft && !isAddDialogOpen
    {
      if draft.title == "" {
        return;
      }
      var task := NewTask(draft, id, today);
      tasks := [task] + tasks;
      draft := EmptyDraft;
      isAddDialogOpen := false;
    }

    /** `updateTaskStatus`, reached from the row menu and from the checkbox. */
    method UpdateTaskStatus(taskId: string, s: Status)
      modifies this
      ensures tasks == WithStatus(old(tasks), taskId, s)
      ensures draft == old(draft) && isAddDialogOpen == old(isAddDialogOpen)
    {
      tasks := WithStatus(tasks, taskId, s);
    }

    /** `deleteTask`. */
    method DeleteTask(taskId: string)
      modifies this
      ensures tasks == WithoutId(old(tasks), taskId)
      ensures draft == old(draft) && isAddDialogOpen == old(isAddDialogOpen)
    {
      tasks := WithoutId(tasks, taskId);
    }
  }
}
