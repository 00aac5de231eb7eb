/** Option and Result, for values JavaScript writes as `T | null` and for remote calls that may throw. */
module Wrappers {
  import opened JsText

  datatype Option<+T> = None | Some(value: T)

  /** What an awaited remote call yields: its value, or the error it throws. */
  datatype Result<+T> = Success(value: T) | Failure(error: ServiceError)

  /** A remote call that yields nothing useful when it succeeds. */
  datatype Outcome = Pass | Fail(error: ServiceError)

  /** The error object a failed backend call throws; only its message is ever read. */
  datatype ServiceError = ServiceError(message: JsString)
}

/**
 * The records of the application (users, projects, tasks) and the
 * object-spread update `{ ...task, ...updates }` that the store applies.
 */
module Types {
  import opened Wrappers
  import opened JsText

  /** A user as the application passes it around; `isDeveloper` is an optional key. */
  datatype User = User(id: JsString, email: JsString, name: JsString, isDeveloper: Option<bool>)

  /** `!!user.isDeveloper`: an absent key counts as false. */
  predicate IsDeveloper(u: User) {
    u.isDeveloper == Some(true)
  }

  /** The account record the identity service returns for `account.get()`. */
  datatype Account = Account(id: JsString, email: JsString, name: JsString)

  /** `{ $id, email, name, isDeveloper }`, the user record built from an account in three places. */
  function UserFromAccount(a: Account, isDeveloper: bool): (u: User)
    ensures u.id == a.id && u.email == a.email && u.name == a.name
    ensures IsDeveloper(u) <==> isDeveloper
  {
    User(a.id, a.email, a.name, Some(isDeveloper))
  }

  /** The storage bucket screenshots are uploaded to and viewed from, as configured by default. */
  const StorageBucketId := Str("task-screenshots")

  datatype Project = Project(id: JsString, name: JsString, description: JsString,
                             createdAt: JsString, updatedAt: JsString)

  /**
   * A task as it arrives from the document store. The documents are cast to
   * `Task` without any check, so `taskType` and `status` are kept as the raw
   * strings; the unions the type declares are the predicates below.
   */
  datatype Task = Task(
    id: JsString,
    title: JsString,
    description: JsString,
    taskType: JsString,
    status: JsString,
    projectId: JsString,
    submittedBy: JsString,
    submittedByName: JsString,
    screenshotId: Option<JsString>,
    createdAt: JsString,
    updatedAt: JsString,
    project: Option<Project>)

  /** `"bug" | "improvement" | "feature"` */
  datatype TaskType = Bug | Improvement | Feature {
    function Text(): JsString {
      match this
      case Bug => Str("bug")
      case Improvement => Str("improvement")
      case Feature => Str("feature")
    }
  }

  /** `"open" | "in-progress" | "closed"` */
  datatype TaskStatus = Open | InProgress | Closed {
    function Text(): JsString {
      match this
      case Open => Str("open")
      case InProgress => Str("in-progress")
      case Closed => Str("closed")
    }
  }

  /** The status string is one of the three the `Task` type declares. */
  predicate ValidStatus(s: JsString) {
    s == Open.Text() || s == InProgress.Text() || s == Closed.Text()
  }

  /**
   * `Partial<Task>`: `Some(v)` when the key is present. The optional keys
   * `screenshotId` and `project` can be present with no value, hence the
   * nested options.
   */
  datatype TaskPatch = TaskPatch(
    id: Option<JsString>,
    title: Option<JsString>,
    description: Option<JsString>,
    taskType: Option<JsString>,
    status: Option<JsString>,
    projectId: Option<JsString>,
    submittedBy: Option<JsString>,
    submittedByName: Option<JsString>,
    screenshotId: Option<Option<JsString>>,
    createdAt: Option<JsString>,
    updatedAt: Option<JsString>,
    project: Option<Option<Project>>)

  const EmptyPatch := TaskPatch(None, None, None, None, None, None, None, None, None, None, None, None)

  /** `{ status: s }` */
  function StatusPatch(s: JsString): TaskPatch {
    EmptyPatch.(status := Some(s))
  }

  /** A whole task used as the update object: every key is present. */
  function FullPatch(t: Task): TaskPatch {
    TaskPatch(Some(t.id), Some(t.title), Some(t.description), Some(t.taskType), Some(t.status),
              Some(t.projectId), Some(t.submittedBy), Some(t.submittedByName), Some(t.screenshotId),
              Some(t.createdAt), Some(t.updatedAt), Some(t.project))
  }

  function Override<T>(current: T, update: Option<T>): T {
    match update
    case Some(v) => v
    case None => current
  }

  /** `{ ...t, ...p }`: each key present in `p` overrides, every other key keeps its value. */
  function Merge(t: Task, p: TaskPatch): (r: Task)
    ensures r.id == (if p.id.Some? then p.id.value else t.id)
    ensures r.title == (if p.title.Some? then p.title.value else t.title)
    ensures r.description == (if p.description.Some? then p.description.value else t.description)
    ensures r.taskType == (if p.taskType.Some? then p.taskType.value else t.taskType)
    ensures r.status == (if p.status.Some? then p.status.value else t.status)
    ensures r.projectId == (if p.projectId.Some? then p.projectId.value else t.projectId)
    ensures r.submittedBy == (if p.submittedBy.Some? then p.submittedBy.value else t.submittedBy)
    ensures r.submittedByName == (if p.submittedByName.Some? then p.submittedByName.value else t.submittedByName)
    ensures r.screenshotId == (if p.screenshotId.Some? then p.screenshotId.value else t.screenshotId)
    ensures r.createdAt == (if p.createdAt.Some? then p.createdAt.value else t.createdAt)
    ensures r.updatedAt == (if p.updatedAt.Some? then p.updatedAt.value else t.updatedAt)
    ensures r.project == (if p.project.Some? then p.project.value else t.project)
  {
    Task(Override(t.id, p.id), Override(t.title, p.title), Override(t.description, p.description),
         Override(t.taskType, p.taskType), Override(t.status, p.status), Override(t.projectId, p.projectId),
         Override(t.submittedBy, p.submittedBy), Override(t.submittedByName, p.submittedByName),
         Override(t.screenshotId, p.screenshotId), Override(t.createdAt, p.createdAt),
         Override(t.updatedAt, p.updatedAt), Override(t.project, p.project))
  }

  /** Spreading an empty object changes nothing. */
  lemma MergeEmpty(t: Task)
    ensures Merge(t, EmptyPatch) == t
  {}

  /** Spreading a whole task yields exactly that task, whatever it is spread over. */
  lemma MergeFull(t: Task, payload: Task)
    ensures Merge(t, FullPatch(payload)) == payload
  {}

  /** Spreading `{ status: s }` changes the status and no other field. */
  lemma MergeStatus(t: Task, s: JsString)
    ensures Merge(t, StatusPatch(s)) == t.(status := s)
  {}

  /** Spreading the same update twice is spreading it once. */
  lemma MergeIdempotent(t: Task, p: TaskPatch)
    ensures Merge(Merge(t, p), p) == Merge(t, p)
  {}
}
