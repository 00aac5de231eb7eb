/**
 * The feedback submission form: the screenshot check on file selection,
 * and the submit sequence (account lookup, optional upload, document
 * creation) with the reset that follows a successful submit. Submit runs in
 * two halves around its remote calls: `BeginSubmit` and `FinishSubmit`.
 */
module SubmissionForm {
  import opened Wrappers
  import opened JsText
  import opened Types

  /** The selected file, as far as the form looks at it: its size in bytes and its MIME type. */
  datatype File = File(name: JsString, size: nat, mimeType: JsString)

  /** The screenshot limit, 5 MiB. */
  const MaxScreenshotBytes: nat := 5 * 1024 * 1024

  const ImageTypePrefix := Str("image/")

  datatype FileCheck = Accepted | TooLarge | InvalidType

  /** The size is checked first, and only a size strictly over the limit is refused. */
  function CheckFile(f: File): (c: FileCheck)
    ensures c == TooLarge <==> f.size > MaxScreenshotBytes
    ensures c == InvalidType <==> f.size <= MaxScreenshotBytes && !StartsWith(f.mimeType, ImageTypePrefix)
    ensures c == Accepted <==> f.size <= MaxScreenshotBytes && StartsWith(f.mimeType, ImageTypePrefix)
  {
    if f.size > MaxScreenshotBytes then TooLarge
    else if !StartsWith(f.mimeType, ImageTypePrefix) then InvalidType
    else Accepted
  }

  /** A file of exactly 5 MiB passes the size check; one byte more does not, whatever its type. */
  lemma LimitIsInclusive(name: JsString, mimeType: JsString)
    ensures CheckFile(File(name, 5242880, Str("image/png"))) == Accepted
    ensures CheckFile(File(name, 5242881, mimeType)) == TooLarge
  {
    assert StartsWith(Str("image/png"), ImageTypePrefix) by {
      assert Str("image/png")[..6] == ImageTypePrefix;
    }
  }

  /** The fields the form holds. */
  datatype Fields = Fields(title: JsString, description: JsString, taskType: TaskType,
                           projectId: JsString, screenshot: Option<File>)

  /** The fields a new form starts with, and returns to after a successful submit. */
  const BlankFields := Fields([], [], Bug, [], None)

  /** The new document's attributes. `screenshotId` is left out when no screenshot was uploaded. */
  datatype TaskDocument = TaskDocument(title: JsString, description: JsString, taskType: JsString,
                                       status: JsString, projectId: JsString, submittedBy: JsString,
                                       submittedByName: JsString, screenshotId: Option<JsString>)

  /** The document written for the submitted fields, by the account `user`, with the uploaded file id if any. */
  function NewTaskDocument(f: Fields, user: Account, screenshotId: Option<JsString>): (d: TaskDocument)
    ensures d.status == Open.Text()
    ensures d.title == f.title && d.description == f.description && d.taskType == f.taskType.Text()
    ensures d.projectId == f.projectId
    ensures d.submittedBy == user.id && d.submittedByName == user.name
    ensures d.screenshotId == screenshotId
  {
    TaskDocument(f.title, f.description, f.taskType.Text(), Open.Text(), f.projectId,
                 user.id, user.name, screenshotId)
  }

  /**
   * The remote services the submit uses: the current account, the file
   * upload (answering the new file's id) and the document creation.
   */
  datatype Services = Services(accountGet: Result<Account>,
                               createFile: File -> Result<JsString>,
                               createDocument: TaskDocument -> Outcome)

  /** What a submit did: the file it uploaded, the document it asked to create, and whether everything succeeded. */
  datatype SubmitRun = SubmitRun(uploaded: Option<JsString>, document: Option<TaskDocument>, ok: bool)

  /** The document is created with the file id of a successful upload, or with none. */
  function CreateWith(f: Fields, user: Account, uploaded: Option<JsString>, svc: Services): SubmitRun {
    var d := NewTaskDocument(f, user, uploaded);
    SubmitRun(uploaded, Some(d), svc.createDocument(d).Pass?)
  }

  /** The `try` block of `handleSubmit`: the first failing call ends it. */
  function RunSubmit(f: Fields, svc: Services): (r: SubmitRun)
    ensures r.ok ==> r.document.Some? && svc.createDocument(r.document.value).Pass?
    ensures svc.accountGet.Failure? ==> r == SubmitRun(None, None, false)
    ensures r.uploaded.Some? ==> f.screenshot.Some? && svc.createFile(f.screenshot.value) == Success(r.uploaded.value)
    ensures r.document.Some? <==>
      svc.accountGet.Success? && (f.screenshot.Some? ==> svc.createFile(f.screenshot.value).Success?)
    ensures r.ok <==>
      && svc.accountGet.Success?
      && (f.screenshot.Some? ==> svc.createFile(f.screenshot.value).Success?)
      && svc.createDocument(NewTaskDocument(f, svc.accountGet.value,
           if f.screenshot.Some? then Some(svc.createFile(f.screenshot.value).value) else None)).Pass?
  {
    match svc.accountGet
    case Failure(_) => SubmitRun(None, None, false)
    case Success(user) =>
      match f.screenshot
      case None => CreateWith(f, user, None, svc)
      case Some(file) =>
        match svc.createFile(file)
        case Failure(_) => SubmitRun(None, None, false)
        case Success(id) => CreateWith(f, user, Some(id), svc)
  }

  /**
   * Any document the submit asks for is an open task of the signed-in
   * account, with the form's fields, carrying a screenshot id exactly when
   * the form held a screenshot (whose upload then succeeded).
   */
  lemma SubmittedDocumentShape(f: Fields, svc: Services)
    requires RunSubmit(f, svc).document.Some?
    ensures var d := RunSubmit(f, svc).document.value;
      && svc.accountGet.Success?
      && d.status == Open.Text()
      && d.submittedBy == svc.accountGet.value.id && d.submittedByName == svc.accountGet.value.name
      && d.title == f.title && d.description == f.description
      && d.taskType == f.taskType.Text() && d.projectId == f.projectId
      && (d.screenshotId.Some? <==> f.screenshot.Some?)
      && (f.screenshot.Some? ==> svc.createFile(f.screenshot.value) == Success(d.screenshotId.value))
  {}

  /** A failed upload stops the submit before any document is asked for. */
  lemma FailedUploadCreatesNothing(f: Fields, svc: Services)
    requires svc.accountGet.Success? && f.screenshot.Some? && svc.createFile(f.screenshot.value).Failure?
    ensures RunSubmit(f, svc) == SubmitRun(None, None, false)
  {}

  /**
   * When the upload succeeds and the document is refused, the submit fails
   * but the uploaded file stays in storage: nothing removes it.
   */
  lemma RefusedDocumentLeavesUpload(f: Fields, svc: Services)
    requires svc.accountGet.Success? && f.screenshot.Some? && svc.createFile(f.screenshot.value).Success?
    requires svc.createDocument(NewTaskDocument(f, svc.accountGet.value, Some(svc.createFile(f.screenshot.value).value))).Fail?
    ensures !RunSubmit(f, svc).ok && RunSubmit(f, svc).uploaded.Some?
  {}

  /** The form's fields after a submit: reset when it succeeded, kept for another try when it failed. */
  function FieldsAfterSubmit(f: Fields, ok: bool): (r: Fields)
    ensures ok ==> r == BlankFields
    ensures !ok ==> r == f
  {
    if ok then BlankFields else f
  }

  /** The form component's state. */
  class SubmissionFormView {
    var title: JsString
    var description: JsString
    var taskType: TaskType
    var projectId: JsString
    var screenshot: Option<File>
    var isLoading: bool

    function Current(): Fields
      reads this
    {
      Fields(title, description, taskType, projectId, screenshot)
    }

    constructor ()
      ensures Current() == BlankFields && !isLoading
    {
      title, description, taskType, projectId, screenshot := [], [], Bug, [], None;
      isLoading := false;
    }

    /**
     * `handleFileChange`: an accepted file becomes the screenshot; a refused
     * one is reported and the previous screenshot is kept; no file changes
     * nothing.
     */
    method HandleFileChange(file: Option<File>) returns (refusal: Option<FileCheck>)
      modifies this
      ensures file.None? ==> refusal == None && screenshot == old(screenshot)
      ensures file.Some? && CheckFile(file.value) == Accepted ==> refusal == None && screenshot == file
      ensures file.Some? && CheckFile(file.value) != Accepted ==>
        refusal == Some(CheckFile(file.value)) && screenshot == old(screenshot)
      ensures title == old(title) && description == old(description) && taskType == old(taskType)
      ensures projectId == old(projectId) && isLoading == old(isLoading)
    {
      refusal := None;
      if file.Some? {
        if file.value.size > MaxScreenshotBytes {
          refusal := Some(TooLarge);
        } else if !StartsWith(file.value.mimeType, ImageTypePrefix) {
          refusal := Some(InvalidType);
        } else {
          screenshot := file;
        }
      }
    }

    /** `removeScreenshot` */
    method RemoveScreenshot()
      modifies this
      ensures Current() == old(Current()).(screenshot := None) && isLoading == old(isLoading)
    {
      screenshot := None;
    }

    /** `handleSubmit` up to its first `await`: the submit button is disabled. */
    method BeginSubmit()
      modifies this
      ensures isLoading && Current() == old(Current())
    {
      isLoading := true;
    }

    /**
     * `handleSubmit` after its remote calls: on success the fields are reset
     * and `onSuccess` is called (`notified`); on failure they are kept; the
     * button is enabled again either way.
     */
    method FinishSubmit(svc: Services) returns (run: SubmitRun, notified: bool)
      modifies this
      ensures run == RunSubmit(old(Current()), svc)
      ensures notified == run.ok
      ensures Current() == FieldsAfterSubmit(old(Current()), run.ok)
      ensures !isLoading
    {
      run := RunSubmit(Current(), svc);
      notified := run.ok;
      if run.ok {
        title, description, taskType, projectId, screenshot := [], [], Bug, [], None;
      }
      isLoading := false;
    }
  }
}
