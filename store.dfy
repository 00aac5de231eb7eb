/**
 * The client store (`useAppStore`): the signed-in user, the list of tasks
 * on screen and a loading flag, changed only through five actions. Each
 * action is a pure transition `Step` on a snapshot; the class `AppStore`
 * holds the three fields and replaces them as the actions do.
 */
module Store {
  import opened Wrappers
  import opened JsText
  import opened Types

  datatype StoreState = StoreState(user: Option<User>, tasks: seq<Task>, isLoading: bool)

  datatype Action =
    | SetUser(user: Option<User>)
    | SetTasks(tasks: seq<Task>)
    | AddTask(task: Task)
    | UpdateTask(taskId: JsString, updates: TaskPatch)
    | SetLoading(loading: bool)

  /** The state the store is created with. */
  const Initial := StoreState(None, [], false)

  /** `tasks.map(task => task.$id === taskId ? { ...task, ...updates } : task)` */
  function UpdateById(tasks: seq<Task>, taskId: JsString, updates: TaskPatch): (r: seq<Task>)
    ensures |r| == |tasks|
    ensures forall i :: 0 <= i < |tasks| && tasks[i].id != taskId ==> r[i] == tasks[i]
    ensures forall i :: 0 <= i < |tasks| && tasks[i].id == taskId ==> r[i] == Merge(tasks[i], updates)
  {
    seq(|tasks|, i requires 0 <= i < |tasks| => if tasks[i].id == taskId then Merge(tasks[i], updates) else tasks[i])
  }

  /** The snapshot after one action. */
  function Step(s: StoreState, a: Action): (r: StoreState)
    ensures !a.SetUser? ==> r.user == s.user
    ensures !a.SetLoading? ==> r.isLoading == s.isLoading
    ensures a.SetUser? || a.SetLoading? ==> r.tasks == s.tasks
    ensures a.AddTask? ==> |r.tasks| == |s.tasks| + 1
    ensures a.UpdateTask? ==> |r.tasks| == |s.tasks|
  {
    match a
    case SetUser(u) => s.(user := u)
    case SetTasks(ts) => s.(tasks := ts)
    case AddTask(t) => s.(tasks := [t] + s.tasks)
    case UpdateTask(id, p) => s.(tasks := UpdateById(s.tasks, id, p))
    case SetLoading(b) => s.(isLoading := b)
  }

  /** How many tasks carry the id `id`. */
  function CountId(tasks: seq<Task>, id: JsString): nat {
    if tasks == [] then 0 else (if tasks[0].id == id then 1 else 0) + CountId(tasks[1..], id)
  }

  /** `setUser`, `setTasks` and `setLoading` each replace one field and keep the other two. */
  lemma SettersReplaceOneField(s: StoreState, u: Option<User>, ts: seq<Task>, b: bool)
    ensures Step(s, SetUser(u)) == StoreState(u, s.tasks, s.isLoading)
    ensures Step(s, SetTasks(ts)) == StoreState(s.user, ts, s.isLoading)
    ensures Step(s, SetLoading(b)) == StoreState(s.user, s.tasks, b)
  {}

  /** `setTasks(X)` makes the list exactly `X`, and doing it twice is doing it once. */
  lemma SetTasksIdempotent(s: StoreState, xs: seq<Task>)
    ensures Step(s, SetTasks(xs)).tasks == xs
    ensures Step(Step(s, SetTasks(xs)), SetTasks(xs)) == Step(s, SetTasks(xs))
  {}

  /** `addTask(t)` puts `t` in front of the old list, without looking for an existing task with its id. */
  lemma AddTaskPrepends(s: StoreState, t: Task)
    ensures var r := Step(s, AddTask(t));
      && |r.tasks| == |s.tasks| + 1
      && r.tasks[0] == t
      && r.tasks[1..] == s.tasks
      && CountId(r.tasks, t.id) == CountId(s.tasks, t.id) + 1
      && r.user == s.user && r.isLoading == s.isLoading
  {
    var r := Step(s, AddTask(t));
    assert r.tasks[1..] == s.tasks;
  }

  /**
   * `updateTask` keeps the length and the order; a task whose id is not
   * `taskId` is left as it was, and every task whose id is `taskId`,
   * duplicates included, becomes that task overridden by the keys present
   * in `updates`. The user and the loading flag do not change.
   */
  lemma UpdateTaskShape(s: StoreState, taskId: JsString, updates: TaskPatch)
    ensures var r := Step(s, UpdateTask(taskId, updates));
      && |r.tasks| == |s.tasks|
      && (forall i :: 0 <= i < |s.tasks| && s.tasks[i].id != taskId ==> r.tasks[i] == s.tasks[i])
      && (forall i :: 0 <= i < |s.tasks| && s.tasks[i].id == taskId ==> r.tasks[i] == Merge(s.tasks[i], updates))
      && r.user == s.user && r.isLoading == s.isLoading
  {}

  /** `updateTask` with an id that no task has leaves the store as it was. */
  lemma UpdateTaskMissingId(s: StoreState, taskId: JsString, updates: TaskPatch)
    requires forall i :: 0 <= i < |s.tasks| ==> s.tasks[i].id != taskId
    ensures Step(s, UpdateTask(taskId, updates)) == s
  {
    assert UpdateById(s.tasks, taskId, updates) == s.tasks;
  }

  /** The same `updateTask` applied twice has the effect of applying it once. */
  lemma UpdateTaskIdempotent(s: StoreState, taskId: JsString, updates: TaskPatch)
    ensures var once := Step(s, UpdateTask(taskId, updates));
      Step(once, UpdateTask(taskId, updates)) == once
  {
    var once := Step(s, UpdateTask(taskId, updates));
    forall i | 0 <= i < |s.tasks|
      ensures UpdateById(once.tasks, taskId, updates)[i] == once.tasks[i]
    {
      MergeIdempotent(s.tasks[i], updates);
    }
  }

  /** The store object: the three fields the actions replace. */
  class AppStore {
    var user: Option<User>
    var tasks: seq<Task>
    var isLoading: bool

    function State(): StoreState
      reads this
    {
      StoreState(user, tasks, isLoading)
    }

    /** The store starts with no user, no tasks and not loading. */
    constructor ()
      ensures user == None && tasks == [] && !isLoading
      ensures State() == Initial
    {
      user, tasks, isLoading := None, [], false;
    }

    /** `setUser(user)` */
    method SetUser(u: Option<User>)
      modifies this
      ensures user == u && tasks == old(tasks) && isLoading == old(isLoading)
      ensures State() == Step(old(State()), Action.SetUser(u))
    {
      user := u;
    }

    /** `setTasks(tasks)` */
    method SetTasks(ts: seq<Task>)
      modifies this
      ensures user == old(user) && tasks == ts && isLoading == old(isLoading)
      ensures State() == Step(old(State()), Action.SetTasks(ts))
    {
      tasks := ts;
    }

    /** `addTask(task)` */
    method AddTask(t: Task)
      modifies this
      ensures user == old(user) && tasks == [t] + old(tasks) && isLoading == old(isLoading)
      ensures State() == Step(old(State()), Action.AddTask(t))
    {
      tasks := [t] + tasks;
    }

    /** `updateTask(taskId, updates)` */
    method UpdateTask(taskId: JsString, updates: TaskPatch)
      modifies this
      ensures user == old(user) && tasks == UpdateById(old(tasks), taskId, updates) && isLoading == old(isLoading)
      ensures State() == Step(old(State()), Action.UpdateTask(taskId, updates))
    {
      tasks := UpdateById(tasks, taskId, updates);
    }

    /** `setLoading(isLoading)` */
    method SetLoading(b: bool)
      modifies this
      ensures user == old(user) && tasks == old(tasks) && isLoading == b
      ensures State() == Step(old(State()), Action.SetLoading(b))
    {
      isLoading := b;
    }
  }
}
