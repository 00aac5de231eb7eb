/**
 * The detail dialog of one task: the status change a developer makes from it, and
 * the screenshot it loads when it is open. The status request runs in two
 * halves around the remote call: `BeginStatusUpdate` before it and
 * `FinishStatusUpdate` with its answer.
 */
module TaskDetailDialog {
  import opened Wrappers
  import opened JsText
  import opened Types
  import opened Store

  // ---- status change

  /** The store after a status change whose remote write answered `remote`: only a confirmed write reaches the store. */
  function AfterStatusUpdate(s: StoreState, taskId: JsString, newStatus: TaskStatus, remote: Outcome): (r: StoreState)
    ensures remote.Fail? ==> r == s
    ensures r.user == s.user && r.isLoading == s.isLoading && |r.tasks| == |s.tasks|
    ensures forall i :: 0 <= i < |s.tasks| && s.tasks[i].id != taskId ==> r.tasks[i] == s.tasks[i]
  {
    if remote.Pass? then Step(s, UpdateTask(taskId, StatusPatch(newStatus.Text()))) else s
  }

  /**
   * A confirmed write changes the status of the tasks with that id, and
   * nothing else: no other field, no other task, not the user or the flag.
   */
  lemma ConfirmedUpdateChangesOnlyStatus(s: StoreState, taskId: JsString, newStatus: TaskStatus)
    ensures var r := AfterStatusUpdate(s, taskId, newStatus, Pass);
      && r.user == s.user && r.isLoading == s.isLoading
      && |r.tasks| == |s.tasks|
      && (forall i :: 0 <= i < |s.tasks| ==>
            r.tasks[i] == (if s.tasks[i].id == taskId then s.tasks[i].(status := newStatus.Text()) else s.tasks[i]))
  {
    var r := AfterStatusUpdate(s, taskId, newStatus, Pass);
    forall i | 0 <= i < |s.tasks|
      ensures r.tasks[i] == (if s.tasks[i].id == taskId then s.tasks[i].(status := newStatus.Text()) else s.tasks[i])
    {
      MergeStatus(s.tasks[i], newStatus.Text());
    }
  }

  /** What the status area of the dialog shows. */
  datatype Selector = Hidden | Enabled | Disabled

  /** The selector is offered only when the parent asks for it, and is disabled while a write is pending. */
  function StatusSelector(showStatusUpdate: bool, isUpdating: bool): (r: Selector)
    ensures r == Hidden <==> !showStatusUpdate
    ensures r == Enabled <==> showStatusUpdate && !isUpdating
  {
    if !showStatusUpdate then Hidden else if isUpdating then Disabled else Enabled
  }

  // ---- screenshot

  /** `task.screenshotId && open`: an absent or empty id loads nothing, nor does a closed dialog. */
  predicate ShouldLoadScreenshot(screenshotId: Option<JsString>, open: bool) {
    screenshotId.Some? && screenshotId.value != [] && open
  }

  /** The screenshot URL after the load effect ran, given the view URL the storage service builds or the error it throws. */
  function LoadedUrl(current: Option<JsString>, screenshotId: Option<JsString>, open: bool,
                     fileView: (JsString, JsString) -> Result<JsString>): (r: Option<JsString>)
    ensures !ShouldLoadScreenshot(screenshotId, open) ==> r == current
    ensures ShouldLoadScreenshot(screenshotId, open) ==>
      r == (match fileView(StorageBucketId, screenshotId.value)
            case Success(url) => Some(url)
            case Failure(_) => current)
  {
    if ShouldLoadScreenshot(screenshotId, open) then
      match fileView(StorageBucketId, screenshotId.value)
      case Success(url) => Some(url)
      case Failure(_) => current
    else current
  }

  /** What the screenshot section shows. */
  datatype ScreenshotView = NoSection | Spinner | Picture(url: JsString)

  function ScreenshotSection(screenshotId: Option<JsString>, url: Option<JsString>): (v: ScreenshotView)
    ensures v == NoSection <==> !(screenshotId.Some? && screenshotId.value != [])
    ensures v.Picture? ==> url == Some(v.url) && v.url != []
    ensures screenshotId.Some? && screenshotId.value != [] && url.Some? && url.value != [] ==> v == Picture(url.value)
    ensures v == Spinner <==> screenshotId.Some? && screenshotId.value != [] && !(url.Some? && url.value != [])
  {
    if !(screenshotId.Some? && screenshotId.value != []) then NoSection
    else if url.Some? && url.value != [] then Picture(url.value)
    else Spinner
  }

  /** An open dialog whose screenshot the storage service can build a view for shows that picture. */
  lemma OpenDialogShowsScreenshot(id: JsString, fileView: (JsString, JsString) -> Result<JsString>)
    requires id != [] && fileView(StorageBucketId, id).Success? && fileView(StorageBucketId, id).value != []
    ensures ScreenshotSection(Some(id), LoadedUrl(None, Some(id), true, fileView))
         == Picture(fileView(StorageBucketId, id).value)
  {}

  /** When building the view fails, the error is only logged and the section keeps its spinner. */
  lemma FailedViewKeepsSpinner(id: JsString, fileView: (JsString, JsString) -> Result<JsString>)
    requires id != [] && fileView(StorageBucketId, id).Failure?
    ensures ScreenshotSection(Some(id), LoadedUrl(None, Some(id), true, fileView)) == Spinner
  {}

  /** The dialog's own state; `task` and `showStatusUpdate` are the props it was opened with. */
  class TaskDetailDialogView {
    const task: Task
    const showStatusUpdate: bool
    var open: bool
    var isUpdating: bool
    var screenshotUrl: Option<JsString>

    constructor (task: Task, open: bool, showStatusUpdate: bool)
      ensures this.task == task && this.open == open && this.showStatusUpdate == showStatusUpdate
      ensures !isUpdating && screenshotUrl == None
    {
      this.task := task;
      this.open := open;
      this.showStatusUpdate := showStatusUpdate;
      isUpdating := false;
      screenshotUrl := None;
    }

    /** The status selector the dialog shows now. */
    function ShownSelector(): Selector
      reads this
    {
      StatusSelector(showStatusUpdate, isUpdating)
    }

    /** `handleStatusUpdate` up to its `await`: the selector is disabled. */
    method BeginStatusUpdate()
      modifies this
      ensures isUpdating && open == old(open) && screenshotUrl == old(screenshotUrl)
      ensures showStatusUpdate ==> ShownSelector() == Disabled
    {
      isUpdating := true;
    }

    /**
     * `handleStatusUpdate` after its `await`: the write of `{ status }` to
     * the dialog's task answered `remote`; only on success is the store
     * updated, and the selector is enabled again either way.
     */
    method FinishStatusUpdate(store: AppStore, newStatus: TaskStatus,
                              updateDocument: (JsString, TaskPatch) -> Outcome)
      returns (remote: Outcome)
      modifies this, store
      ensures remote == updateDocument(task.id, StatusPatch(newStatus.Text()))
      ensures store.State() == AfterStatusUpdate(old(store.State()), task.id, newStatus, remote)
      ensures !isUpdating && open == old(open) && screenshotUrl == old(screenshotUrl)
    {
      remote := updateDocument(task.id, StatusPatch(newStatus.Text()));
      if remote.Pass? {
        store.UpdateTask(task.id, StatusPatch(newStatus.Text()));
      }
      isUpdating := false;
    }

    /** The screenshot effect, run when the dialog opens or the id changes. */
    method LoadScreenshot(fileView: (JsString, JsString) -> Result<JsString>)
      modifies this
      ensures screenshotUrl == LoadedUrl(old(screenshotUrl), task.screenshotId, open, fileView)
      ensures open == old(open) && isUpdating == old(isUpdating)
    {
      if ShouldLoadScreenshot(task.screenshotId, open) {
        var view := fileView(StorageBucketId, task.screenshotId.value);
        if view.Success? {
          screenshotUrl := Some(view.value);
        }
      }
    }
  }
}
