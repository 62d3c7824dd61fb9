/** The tasks route of the API: a process-wide list of tasks that GET filters,
    POST appends to, PUT merges a patch into (first task with the id) and DELETE
    splices (first task with the id). Ids and timestamps come from the clock in
    the original; here they are parameters. */
module TasksApi {
  import opened Common

  /** A stored task. Status and priority are strings: the route never checks them
      against their enumerations, and PUT stores whatever a client sends. */
  datatype Task = Task(
    id: string,
    title: string,
    description: string,
    status: string,
    priority: string,
    category: string,
    dueDate: string,
    createdAt: string,
    updatedAt: string)

  /** The JSON body of a POST; a field is `None` when the client left it out. */
  datatype NewTask = NewTask(
    title: Option<string>,
    description: Option<string>,
    priority: Option<string>,
    category: Option<string>,
    dueDate: Option<string>)

  /** The JSON body of a PUT after its `id` is split off: every present field
      overwrites the stored one. */
  datatype TaskPatch = TaskPatch(
    title: Option<string>,
    description: Option<string>,
    status: Option<string>,
    priority: Option<string>,
    category: Option<string>,
    dueDate: Option<string>,
    createdAt: Option<string>,
    updatedAt: Option<string>)

  /** What a handler answers, with its HTTP status. */
  datatype Response =
    | Listed(tasks: seq<Task>, total: nat)
    | Created(task: Task)
    | Updated(task: Task)
    | Deleted
    | Failed(code: nat, error: string)
  {
    function Status(): nat
    {
      match this
      case Listed(_, _) => 200
      case Created(_) => 201
      case Updated(_) => 200
      case Deleted => 200
      case Failed(code, _) => code
    }
  }

  /** A query parameter restricts a field unless it is absent, empty or 'all'. */
  predicate Selects(param: Option<string>, value: string)
  {
    !Truthy(param) || param.value == "all" || value == param.value
  }

  function StatusFilter(status: Option<string>): Task -> bool
  {
    (t: Task) => Selects(status, t.status)
  }

  function PriorityFilter(priority: Option<string>): Task -> bool
  {
    (t: Task) => Selects(priority, t.priority)
  }

  function CategoryFilter(category: Option<string>): Task -> bool
  {
    (t: Task) => Selects(category, t.category)
  }

  function StatusPriorityFilter(status: Option<string>, priority: Option<string>): Task -> bool
  {
    (t: Task) => Selects(status, t.status) && Selects(priority, t.priority)
  }

  /** The three GET filters together. */
  function QueryFilter(status: Option<string>, priority: Option<string>, category: Option<string>): Task -> bool
  {
    (t: Task) => Selects(status, t.status) && Selects(priority, t.priority) && Selects(category, t.category)
  }

  /** The list GET answers with: the tasks passing all three filters, in store order. */
  function Query(tasks: seq<Task>, status: Option<string>, priority: Option<string>, category: Option<string>): (r: seq<Task>)
    ensures Subsequence(r, tasks)
    ensures forall k :: 0 <= k < |r| ==>
      r[k] in tasks && Selects(status, r[k].status) && Selects(priority, r[k].priority) && Selects(category, r[k].category)
    ensures forall k :: 0 <= k < |tasks| ==>
      (Selects(status, tasks[k].status) && Selects(priority, tasks[k].priority) && Selects(category, tasks[k].category)
       ==> tasks[k] in r)
    ensures KeepsCounts(r, tasks, QueryFilter(status, priority, category))
  {
    FilterIsSubsequence(tasks, QueryFilter(status, priority, category));
    FilterCounts(tasks, QueryFilter(status, priority, category));
    Filter(tasks, QueryFilter(status, priority, category))
  }

  /** With no usable query parameter GET lists the whole store. */
  lemma QueryWithoutParameters(tasks: seq<Task>, all: Option<string>)
    requires all == None || all == Some("") || all == Some("all")
    ensures Query(tasks, all, all, all) == tasks
  {
    FilterKeepsAll(tasks, QueryFilter(all, all, all));
  }

  /** The first index holding a task with this id, or -1. */
  function IndexOf(tasks: seq<Task>, id: string): (i: int)
    ensures -1 <= i < |tasks|
    ensures i == -1 <==> forall k :: 0 <= k < |tasks| ==> tasks[k].id != id
    ensures 0 <= i ==> tasks[i].id == id && forall k :: 0 <= k < i ==> tasks[k].id != id
  {
    FirstIndex(tasks, (t: Task) => t.id == id)
  }

  /** `{ ...task, ...updates, updatedAt: now }` where `updates` is the body
      without its id. */
  function Merge(t: Task, patch: TaskPatch, now: string): (r: Task)
    ensures r.id == t.id && r.updatedAt == now
    ensures patch.title.Some? ==> r.title == patch.title.value
    ensures patch.title.None? ==> r.title == t.title
    ensures patch.status.Some? ==> r.status == patch.status.value
    ensures patch.status.None? ==> r.status == t.status
    ensures patch.description.Some? ==> r.description == patch.description.value
    ensures patch.description.None? ==> r.description == t.description
    ensures patch.priority.Some? ==> r.priority == patch.priority.value
    ensures patch.priority.None? ==> r.priority == t.priority
    ensures patch.category.Some? ==> r.category == patch.category.value
    ensures patch.category.None? ==> r.category == t.category
    ensures patch.dueDate.Some? ==> r.dueDate == patch.dueDate.value
    ensures patch.dueDate.None? ==> r.dueDate == t.dueDate
    ensures patch.createdAt.Some? ==> r.createdAt == patch.createdAt.value
    ensures patch.createdAt.None? ==> r.createdAt == t.createdAt
  {
    Task(
      t.id,
      OrKeep(patch.title, t.title),
      OrKeep(patch.description, t.description),
      OrKeep(patch.status, t.status),
      OrKeep(patch.priority, t.priority),
      OrKeep(patch.category, t.category),
      OrKeep(patch.dueDate, t.dueDate),
      OrKeep(patch.createdAt, t.createdAt),
      now)
  }

  /** A field of a spread: the patch's value when it has one. */
  function OrKeep(o: Option<string>, old_: string): string
  {
    if o.Some? then o.value else old_
  }

  /** An empty patch only refreshes `updatedAt`. */
  lemma MergeEmptyPatch(t: Task, now: string)
    ensures Merge(t, TaskPatch(None, None, None, None, None, None, None, None), now) == t.(updatedAt := now)
  {
  }

  /** Applying the same patch twice is applying it once (with the later time). */
  lemma MergeTwice(t: Task, patch: TaskPatch, now1: string, now2: string)
    ensures Merge(Merge(t, patch, now1), patch, now2) == Merge(t, patch, now2)
  {
  }

  /** The two tasks the route starts with. */
  const SeedTasks: seq<Task> := [
    Task("1", "Complete CS Assignment", "Finish the data structures assignment", "in-progress",
         "high", "homework", "2024-12-20", "2024-12-15T10:00:00Z", "2024-12-15T10:00:00Z"),
    Task("2", "Study for Finals", "Review chapters 1-10 for the final exam", "todo",
         "high", "exam", "2024-12-22", "2024-12-14T10:00:00Z", "2024-12-14T10:00:00Z")
  ]

  /** The module-level `tasks` array and its four handlers. */
  class TaskStore {
    var tasks: seq<Task>

    constructor ()
      ensures tasks == SeedTasks
    {
      tasks := SeedTasks;
    }

    /** GET: narrows a copy of the list filter by filter; the store is not touched. */
    method Get(status: Option<string>, priority: Option<string>, category: Option<string>) returns (r: Response)
      ensures r.Listed? && r.tasks == Query(tasks, status, priority, category) && r.total == |r.tasks|
      ensures r.Status() == 200
    {
      var filtered := tasks;
      if Truthy(status) && status.value != "all" {
        filtered := Filter(filtered, StatusFilter(status));
      } else {
        FilterPassAll(filtered, StatusFilter(status));
      }
      assert filtered == Filter(tasks, StatusFilter(status));
      ghost var sp := StatusPriorityFilter(status, priority);
      var before := filtered;
      if Truthy(priority) && priority.value != "all" {
        filtered := Filter(filtered, PriorityFilter(priority));
      } else {
        FilterPassAll(filtered, PriorityFilter(priority));
      }
      FilterFuse(tasks, StatusFilter(status), PriorityFilter(priority), sp);
      assert filtered == Filter(tasks, sp);
      before := filtered;
      if Truthy(category) && category.value != "all" {
        filtered := Filter(filtered, CategoryFilter(category));
      } else {
        FilterPassAll(filtered, CategoryFilter(category));
      }
      FilterFuse(tasks, sp, CategoryFilter(category), QueryFilter(status, priority, category));
      r := Listed(filtered, |filtered|);
    }

    /** POST: a body without a title is refused with 400; otherwise one task is
        appended with status 'todo' and defaults for the missing fields. */
    method Post(body: NewTask, id: string, now: string, today: string) returns (r: Response)
      modifies this
      ensures !Truthy(body.title) ==> r == Failed(400, "Title is required") && tasks == old(tasks)
      ensures Truthy(body.title) ==> r.Created? && r.Status() == 201 && tasks == old(tasks) + [r.task]
      ensures Truthy(body.title) ==>
        && r.task.id == id
        && r.task.title == body.title.value
        && r.task.description == OrDefault(body.description, "")
        && r.task.status == "todo"
        && r.task.priority == OrDefault(body.priority, "medium")
        && r.task.category == OrDefault(body.category, "general")
        && r.task.dueDate == OrDefault(body.dueDate, today)
        && r.task.createdAt == now && r.task.updatedAt == now
    {
      if !Truthy(body.title) {
        return Failed(400, "Title is required");
      }
      var task := Task(
        id,
        body.title.value,
        OrDefault(body.description, ""),
        "todo",
        OrDefault(body.priority, "medium"),
        OrDefault(body.category, "general"),
        OrDefault(body.dueDate, today),
        now,
        now);
      tasks := tasks + [task];
      r := Created(task);
    }

    /** PUT: 400 without an id, 404 for an unknown id; otherwise the first task with
        the id is replaced by the merge and nothing else changes. */
    method Put(id: Option<string>, patch: TaskPatch, now: string) returns (r: Response)
      modifies this
      ensures !Truthy(id) ==> r == Failed(400, "Task ID is required") && tasks == old(tasks)
      ensures Truthy(id) && IndexOf(old(tasks), id.value) == -1 ==>
        r == Failed(404, "Task not found") && tasks == old(tasks)
      ensures Truthy(id) && IndexOf(old(tasks), id.value) >= 0 ==>
        var i := IndexOf(old(tasks), id.value);
        && tasks == old(tasks)[i := Merge(old(tasks)[i], patch, now)]
        && |tasks| == |old(tasks)|
        && (forall k :: 0 <= k < |tasks| && k != i ==> tasks[k] == old(tasks)[k])
        && r == Updated(tasks[i]) && r.Status() == 200
    {
      if !Truthy(id) {
        return Failed(400, "Task ID is required");
      }
      var i := IndexOf(tasks, id.value);
      if i == -1 {
        return Failed(404, "Task not found");
      }
      tasks := tasks[i := Merge(tasks[i], patch, now)];
      r := Updated(tasks[i]);
    }

    /** DELETE: 400 without an id, 404 for an unknown id; otherwise exactly the
        first task with the id is spliced out. */
    method Delete(id: Option<string>) returns (r: Response)
      modifies this
      ensures !Truthy(id) ==> r == Failed(400, "Task ID is required") && tasks == old(tasks)
      ensures Truthy(id) && IndexOf(old(tasks), id.value) == -1 ==>
        r == Failed(404, "Task not found") && tasks == old(tasks)
      ensures Truthy(id) && IndexOf(old(tasks), id.value) >= 0 ==>
        && tasks == RemoveAt(old(tasks), IndexOf(old(tasks), id.value))
        && |tasks| == |old(tasks)| - 1
        && Subsequence(tasks, old(tasks))
        && r == Deleted && r.Status() == 200
    {
      if !Truthy(id) {
        return Failed(400, "Task ID is required");
      }
      var i := IndexOf(tasks, id.value);
      if i == -1 {
        return Failed(404, "Task not found");
      }
      RemoveAtIsSubsequence(tasks, i);
      tasks := RemoveAt(tasks, i);
      r := Deleted;
    }
  }
}
