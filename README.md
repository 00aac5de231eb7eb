# Feedback platform front end: routing, sessions, store and component logic

A Dafny model of the decision and state logic of a Next.js feedback platform
built on Appwrite. Users submit bug reports, improvements and feature requests.
Developers see every task and move it through `open`, `in-progress` and
`closed`. The model covers:

- **Route guard** (`Middleware`): the redirect decision for a path and the
  resolved user, and the `config.matcher` regular expression that picks which
  paths reach the guard at all.
- **Pages** (`HomePage`, `DashboardPage`): the root redirect and the three-way
  dashboard branch.
- **Sessions** (`Auth`): `getLoggedInUser`, which fails soft (null on any
  failure) and fails closed on the role (a failed membership listing means
  "not a developer"). Also the cookie effects of `createSession` and
  `deleteSession` on a cookie jar modelled as a map.
- **Client store** (`Store`): the zustand store with `user`, `tasks` and
  `isLoading`. Each of the five actions is a pure transition `Step`. The class
  `AppStore` holds the three fields, and each of its methods is proved to move
  the state by that transition.
- **Components**: the realtime dispatcher, status counts, avatar initials,
  card truncation and badge colours/labels of the developer dashboard
  (`DeveloperDashboard`). The status change and screenshot load of the detail
  dialog (`TaskDetailDialog`). The user guard and loading flag of the user
  dashboard (`UserDashboard`). The file check and the submit/reset sequence of
  the submission form (`SubmissionForm`).

Strings are sequences of UTF-16 code units (`JsText`), because JavaScript's
`length`, `substring`, `split` and `replace` count code units. Every Appwrite
call is an oracle: a value of `Result`/`Outcome`, or a function from the
request to one, passed in as a parameter. An `async` handler that sets a flag,
awaits remote calls and then updates state is split into two methods: `Begin…`
for the part before the first `await`, and `Finish…` for the part after the
calls settle.

## Model

| member | source | states |
|---|---|---|
| Types.UserFromAccount | src/lib/auth.ts:25-30 | the user record copies `$id`, `email` and `name` from the account, and is a developer exactly when the flag says so |
| Types.Merge | src/lib/store.ts:27 | `{ ...task, ...updates }`: each key present in the update takes the update's value, every absent key keeps the task's |
| Types.MergeEmpty | src/lib/store.ts:27 | spreading an update with no keys leaves a task unchanged |
| Types.MergeFull | src/lib/store.ts:27 | spreading a whole task over any task yields exactly that task |
| Types.MergeStatus | src/components/task-detail-dialog.tsx:68 | spreading `{ status }` changes the status and no other field |
| Types.MergeIdempotent | src/lib/store.ts:27 | spreading the same update twice equals spreading it once |
| Store.UpdateById | src/lib/store.ts:26-28 | the mapped list has the same length; a task with another id is kept; every task with the id becomes itself merged with the update |
| Store.Step | src/lib/store.ts:22-29 | only `setUser` changes the user and only `setLoading` the flag; those two keep the list; `addTask` lengthens the list by one, `updateTask` keeps its length |
| Store.SettersReplaceOneField | src/lib/store.ts:22-29 | `setUser`, `setTasks` and `setLoading` each replace exactly their own field and keep the other two |
| Store.SetTasksIdempotent | src/lib/store.ts:23 | after `setTasks(X)` the list is `X`; applying it twice equals applying it once |
| Store.AddTaskPrepends | src/lib/store.ts:24 | `addTask(t)` gives `[t]` followed by the old list: length + 1, `t` first, the rest unchanged, one more task with `t`'s id (no duplicate check), user and flag unchanged |
| Store.UpdateTaskShape | src/lib/store.ts:25-28 | `updateTask` keeps length and order; tasks with another id are unchanged; every task with the id, duplicates included, becomes itself merged with the update; user and flag unchanged |
| Store.UpdateTaskMissingId | src/lib/store.ts:27 | `updateTask` with an id no task has leaves the state identical |
| Store.UpdateTaskIdempotent | src/lib/store.ts:25-28 | the same `updateTask` twice has the effect of once |
| Store.AppStore.constructor | src/lib/store.ts:19-21 | a new store has no user, no tasks and is not loading, which is the state `Initial` |
| Store.AppStore.SetUser | src/lib/store.ts:22 | the new state is `Step` of the old one by `setUser` |
| Store.AppStore.SetTasks | src/lib/store.ts:23 | the new state is `Step` of the old one by `setTasks` |
| Store.AppStore.AddTask | src/lib/store.ts:24 | the new state is `Step` of the old one by `addTask`: the new task is prepended |
| Store.AppStore.UpdateTask | src/lib/store.ts:25-28 | the new state is `Step` of the old one by `updateTask`: the by-id merge |
| Store.AppStore.SetLoading | src/lib/store.ts:29 | the new state is `Step` of the old one by `setLoading` |
| Auth.SessionSecret | src/lib/auth.ts:7-10 | a secret is found exactly when the jar holds a `session` cookie, and it is that cookie's value |
| Auth.DeveloperRole | src/lib/auth.ts:16-23 | developer iff the listing of the developers team succeeds and some membership has the user's id |
| Auth.ResolveSecret | src/lib/auth.ts:12-33 | a user exactly when the account lookup succeeds; the account's fields are copied; the role is `DeveloperRole` |
| Auth.GetLoggedInUser | src/lib/auth.ts:5-34 | null without a cookie; with one, `ResolveSecret` of its value; a user iff the account lookup succeeds, with `$id`, `email` and `name` copied from the account; developer iff the listing succeeds and contains the user's id |
| Auth.NoCookieNoLookup | src/lib/auth.ts:8-10 | without a cookie the answer is null whatever the service would say |
| Auth.AccountFailureYieldsNull | src/lib/auth.ts:12-33 | a failed account lookup yields null, never an error |
| Auth.MembershipFailureFailsClosed | src/lib/auth.ts:16-30 | a failed membership listing still yields the user, with `isDeveloper` false |
| Auth.SessionCookieOptions | src/lib/auth.ts:41-47 | the cookie is `httpOnly`, `secure`, `sameSite` strict, path `/`, expiring at the session's `expire` |
| Auth.CreatedSessionResolves | src/lib/auth.ts:36-50 | after a session is stored in the jar, the next lookup resolves that session's secret |
| Auth.DeletedSessionSignsOut | src/lib/auth.ts:52-61 | once the cookie is removed, the next lookup yields null |
| Auth.CookieStore.constructor | src/lib/auth.ts:7 | the jar starts as the request's cookies |
| Auth.CookieStore.Set | src/lib/auth.ts:41-47 | the jar gains the named cookie, all other entries kept |
| Auth.CookieStore.Delete | src/lib/auth.ts:59 | the jar loses the named cookie, all other entries kept |
| Auth.CreateSession | src/lib/auth.ts:36-50 | returns what the service answered; on success the `session` cookie holds the secret with the options above; on failure the jar is unchanged |
| Auth.DeleteSession | src/lib/auth.ts:52-61 | without a cookie nothing happens; otherwise the remote delete of that secret runs, and the cookie is removed only if it succeeded |
| Middleware.Decide | middleware.ts:4-30 | goes on iff (no user and public path) or (user, non-public path, and not a developer route or a developer user); redirects only to `/login` or `/dashboard`; to `/login` iff no user off the public paths |
| Middleware.IsPublicRoute | middleware.ts:9-10 | public iff the path equals `/login` or `/register` exactly |
| Middleware.IsDeveloperRoute | middleware.ts:13-14 | developer-only iff the path starts with `/dashboard/developer` |
| Middleware.DeveloperRoutesAreNotPublic | middleware.ts:9-14 | no path is both public and a developer route |
| Middleware.NoUserOutcomes | middleware.ts:17-27 | with no user the result is Next on a public path and a `/login` redirect elsewhere; the `!user` part of the developer rule is never reached |
| Middleware.SignedInUserLeavesPublicRoutes | middleware.ts:21-23 | a user on `/login` or `/register` is sent to `/dashboard` |
| Middleware.NonDeveloperDowngraded | middleware.ts:25-27 | a user whose `isDeveloper` is false or absent is sent to `/dashboard`, not `/login`, from a developer route |
| Middleware.DeveloperGoesOn | middleware.ts:17-29 | a developer goes on along every non-public path |
| Middleware.SignedInUserGoesOn | middleware.ts:17-29 | any user goes on along a path that is neither public nor a developer route |
| Middleware.PublicRoutesAreExact | middleware.ts:9-10 | `/login` and `/register` are public; `/login/`, `/login/x` and `/register/` are not |
| Middleware.DeveloperRoutesArePrefixes | middleware.ts:13-14 | any extension of a developer route is a developer route |
| Middleware.DeveloperRouteExamples | middleware.ts:13-14 | `/dashboard/developer`, `/dashboard/developer/x` and `/dashboard/developerX` are developer routes; `/dashboard` and `/dashboard/develop` are not |
| Middleware.PassesLookahead | middleware.ts:33 | text after the `/` that cannot begin an excluded prefix or end in an image extension passes the negative lookahead |
| Middleware.IsGuardedPath | middleware.ts:33 | matched iff the path starts with `/`, holds no line terminator, does not continue with `api`, `_next/static`, `_next/image` or `favicon` + any unit + `ico`, and does not end in `.svg`, `.png`, `.jpg`, `.jpeg`, `.gif` or `.webp` |
| Middleware.PagesAreGuarded | middleware.ts:33 | `/`, `/login` and `/dashboard` are matched, so the guard runs on them |
| Middleware.GuardedByEnds | middleware.ts:33 | every path `/` + text that starts with none of `a`, `_`, `f`, ends in none of `g`, `f`, `p` and holds no line terminator is matched |
| Middleware.DeveloperPageIsGuarded | middleware.ts:33 | `/dashboard/developer` is matched, so its role check runs |
| Middleware.ApiPrefixBypasses | middleware.ts:33 | every path whose text after the `/` starts with `api`, `/apiary` included, is not matched |
| Middleware.ImageFilesBypass | middleware.ts:33 | every path ending in `.png` is not matched |
| Middleware.FaviconDotMatchesAnyUnit | middleware.ts:33 | the unescaped dot in `favicon.ico` lets any non-line-terminator unit stand between `favicon` and `ico` |
| Middleware.HandleRequest | middleware.ts:4-34 | paths outside the matcher go on untouched; matched paths get `Decide` for the user the cookie resolves to |
| Middleware.NoCookieGoesToLogin | middleware.ts:5-19 | a matched non-public path requested without a session cookie is redirected to `/login` |
| Middleware.DashboardWithoutCookie | middleware.ts:5-19 | `/dashboard` without a session cookie is redirected to `/login` |
| Middleware.NonDeveloperAtDeveloperDashboard | middleware.ts:13-27 | a non-developer asking for `/dashboard/developer` is sent to `/dashboard` |
| HomePage.HomeRedirect | app/page.tsx:4-12 | a user is sent to `/dashboard`, no user to `/login`; the page always redirects |
| HomePage.HomeIgnoresRole | app/page.tsx:7-10 | the target depends only on whether there is a user, not on the role |
| DashboardPage.Dashboard | app/dashboard/page.tsx:6-18 | exactly one of: redirect to login iff no user; developer dashboard iff a developer; user dashboard iff a user who is not one |
| DashboardPage.AbsentRoleIsUser | app/dashboard/page.tsx:13-17 | a user whose `isDeveloper` is absent or false gets the user dashboard |
| DashboardPage.GuardedDashboardRenders | app/dashboard/page.tsx:9-11 | when the page resolves the same user as the guard, a request the guard let through to `/dashboard` does not hit the page's own redirect |
| DeveloperDashboard.StatusColour | src/components/developer-dashboard.tsx:74-85 | one colour per known status; the grey default exactly for any other string |
| DeveloperDashboard.TypeColour | src/components/developer-dashboard.tsx:87-98 | one colour per known type; the grey default exactly for any other string |
| DeveloperDashboard.StatusLabel | src/components/task-detail-dialog.tsx:112 | the badge label has the status's length |
| DeveloperDashboard.InProgressLabel | src/components/task-detail-dialog.tsx:112 | `in-progress` is labelled `in progress` |
| DeveloperDashboard.PlainStatusLabels | src/components/task-detail-dialog.tsx:112 | `open` and `closed` are shown as they are |
| DeveloperDashboard.OnlyFirstHyphen | src/components/task-detail-dialog.tsx:112 | only the first hyphen becomes a space; later ones stay |
| DeveloperDashboard.GetInitials | src/components/developer-dashboard.tsx:100-106 | the initials are the upper-cased first unit of every non-empty space-separated word, an independent word-start definition; empty segments add nothing |
| DeveloperDashboard.AvatarName | src/components/developer-dashboard.tsx:210 | a non-empty submitter name is kept; an empty one becomes `Unknown` |
| DeveloperDashboard.UnknownSubmitterInitial | src/components/developer-dashboard.tsx:210 | a task without a submitter name shows `U` |
| DeveloperDashboard.CountStatus | src/components/developer-dashboard.tsx:124-126 | the count equals the number of occurrences of the status in the multiset of the tasks' statuses, so at most the number of tasks; 0 when none has it, all when every one has it |
| DeveloperDashboard.CountsAddUp | src/components/developer-dashboard.tsx:124-126 | when every status is one of the three declared, the three counts add up to the number of tasks |
| DeveloperDashboard.CountsBounded | src/components/developer-dashboard.tsx:124-126 | whatever the statuses, the three counts never exceed the number of tasks |
| DeveloperDashboard.CardDescription | src/components/developer-dashboard.tsx:196 | up to 150 units shown as is; longer ones as the first 150 units and `...` |
| DeveloperDashboard.Dispatch | src/components/developer-dashboard.tsx:56-67 | create tag gives `addTask(payload)`, even when the update tag is also present; update tag alone gives `updateTask(payload.$id, payload)`; neither gives nothing |
| DeveloperDashboard.ApplyMessage | src/components/developer-dashboard.tsx:56-67 | handling a message never changes the user or the flag; the list grows by one exactly for a create message and otherwise keeps its length; a message with neither tag changes nothing |
| DeveloperDashboard.CreateMessagePrepends | src/components/developer-dashboard.tsx:61-62 | a create message puts the payload in front of the list |
| DeveloperDashboard.UpdateMessageReplaces | src/components/developer-dashboard.tsx:63-64 | an update message replaces every task with the payload's id by the payload, and nothing else changes |
| DeveloperDashboard.OtherMessageIgnored | src/components/developer-dashboard.tsx:58-66 | a message with neither tag leaves the store unchanged |
| DeveloperDashboard.StatusChangeThenEcho | src/components/developer-dashboard.tsx:63-64 | a local status change followed by its update message ends where the message alone would |
| DeveloperDashboard.DeveloperDashboardView.constructor | src/components/developer-dashboard.tsx:16 | the dashboard starts loading |
| DeveloperDashboard.DeveloperDashboardView.InitializeUser | src/components/developer-dashboard.tsx:19-34 | a found account becomes the store user, marked as a developer; a failure leaves the store unchanged |
| DeveloperDashboard.DeveloperDashboardView.FetchAllTasks | src/components/developer-dashboard.tsx:36-51 | a listing replaces the store's tasks, a failure keeps them; loading ends either way |
| DeveloperDashboard.DeveloperDashboardView.HandleRealtimeMessage | src/components/developer-dashboard.tsx:56-67 | the store moves by the action `Dispatch` picks for the message |
| TaskDetailDialog.AfterStatusUpdate | src/components/task-detail-dialog.tsx:65-79 | a refused write leaves the store unchanged; user, flag and length are always kept; tasks with another id are never touched |
| TaskDetailDialog.ConfirmedUpdateChangesOnlyStatus | src/components/task-detail-dialog.tsx:66-68 | a confirmed write changes only the status of the tasks with that id |
| TaskDetailDialog.StatusSelector | src/components/task-detail-dialog.tsx:158-166 | hidden iff `showStatusUpdate` is false; enabled iff shown and no write is pending |
| TaskDetailDialog.LoadedUrl | src/components/task-detail-dialog.tsx:86-99 | the view URL is requested only for a present, non-empty id while open; it is stored only if it was built |
| TaskDetailDialog.ScreenshotSection | src/components/task-detail-dialog.tsx:122-141 | no section without a non-empty id; with one, the picture exactly when the loaded URL is non-empty, the spinner otherwise |
| TaskDetailDialog.OpenDialogShowsScreenshot | src/components/task-detail-dialog.tsx:88-91 | an open dialog whose view URL is built shows that picture |
| TaskDetailDialog.FailedViewKeepsSpinner | src/components/task-detail-dialog.tsx:92-94 | when the view URL fails, the error is only logged and the spinner stays |
| TaskDetailDialog.TaskDetailDialogView.constructor | src/components/task-detail-dialog.tsx:23-25 | not updating, no screenshot URL |
| TaskDetailDialog.TaskDetailDialogView.BeginStatusUpdate | src/components/task-detail-dialog.tsx:63-64 | `isUpdating` is set, so a shown selector is disabled |
| TaskDetailDialog.TaskDetailDialogView.FinishStatusUpdate | src/components/task-detail-dialog.tsx:65-82 | the write sends `{ status }` for the dialog's task; the store is updated only if it succeeded; `isUpdating` is cleared either way |
| TaskDetailDialog.TaskDetailDialogView.LoadScreenshot | src/components/task-detail-dialog.tsx:86-99 | the URL becomes `LoadedUrl` of the old one |
| UserDashboard.CardDescription | src/components/user-dashboard.tsx:150 | up to 100 units shown as is; longer ones as the first 100 units and `...` |
| UserDashboard.FetchResult | src/components/user-dashboard.tsx:42-56 | without a user nothing runs; with one, a successful query replaces the tasks and a failed one keeps the state; only the tasks can change |
| UserDashboard.NoUserKeepsLoading | src/components/user-dashboard.tsx:43 | without a user the fetch does not run, so loading does not end and the store is unchanged |
| UserDashboard.FetchAfterSignIn | src/components/user-dashboard.tsx:26-50 | after the user is set from an account, the tasks become that account's query answer and the user is not a developer |
| UserDashboard.UserDashboardView.constructor | src/components/user-dashboard.tsx:19 | the dashboard starts loading |
| UserDashboard.UserDashboardView.InitializeUser | src/components/user-dashboard.tsx:23-39 | a found account becomes the store user with `isDeveloper` false; a failure leaves the store unchanged |
| UserDashboard.UserDashboardView.FetchUserTasks | src/components/user-dashboard.tsx:41-59 | without a store user no query is made and nothing changes; otherwise the query is for that user's id, the store moves as `FetchResult` says, and loading ends |
| SubmissionForm.CheckFile | src/components/submission-form.tsx:62-80 | too large iff over 5·1024·1024 bytes (checked first); invalid type iff within the limit and the type does not start with `image/`; accepted otherwise |
| SubmissionForm.LimitIsInclusive | src/components/submission-form.tsx:63 | exactly 5·1024·1024 bytes passes; one byte more is too large whatever the type |
| SubmissionForm.NewTaskDocument | src/components/submission-form.tsx:103-112 | status `open`, submitter id and name from the account, the form's fields, and the uploaded file id if any |
| SubmissionForm.RunSubmit | src/components/submission-form.tsx:92-112 | a document is requested iff the account lookup and the upload (if any) succeed; the submit succeeds iff, in addition, that document is accepted; a failed account lookup does nothing remote; a file id used is the upload's answer |
| SubmissionForm.SubmittedDocumentShape | src/components/submission-form.tsx:93-112 | any document asked for is an open task of the signed-in account with the form's fields, carrying a screenshot id iff the form held a screenshot |
| SubmissionForm.FailedUploadCreatesNothing | src/components/submission-form.tsx:97-103 | a failed upload stops the submit before any document |
| SubmissionForm.RefusedDocumentLeavesUpload | src/components/submission-form.tsx:97-112 | when the upload succeeds and the document is refused, the submit fails with the file left uploaded |
| SubmissionForm.FieldsAfterSubmit | src/components/submission-form.tsx:119-131 | a success resets the fields to empty, `bug`, empty, empty, no screenshot; a failure keeps them |
| SubmissionForm.SubmissionFormView.constructor | src/components/submission-form.tsx:31-36 | blank fields, not loading |
| SubmissionForm.SubmissionFormView.HandleFileChange | src/components/submission-form.tsx:60-82 | no file changes nothing; an accepted file becomes the screenshot; a refused one is reported and the old screenshot kept; no other field changes |
| SubmissionForm.SubmissionFormView.RemoveScreenshot | src/components/submission-form.tsx:84-86 | only the screenshot is cleared |
| SubmissionForm.SubmissionFormView.BeginSubmit | src/components/submission-form.tsx:88-90 | loading starts, the fields are unchanged |
| SubmissionForm.SubmissionFormView.FinishSubmit | src/components/submission-form.tsx:92-135 | the run is `RunSubmit` of the fields; `onSuccess` is called iff it succeeded; the fields become `FieldsAfterSubmit`; loading ends either way |

## Left out

- `src/lib/appwrite.ts` (environment variables and SDK client construction) is not part of this model. Every service call it enables is an oracle parameter. Its default ids `developers-team` and `task-screenshots` are the constants `Auth.DevelopersTeamId` and `Types.StorageBucketId`.
- `src/components/header.tsx` is not part of this model: logout is a chain of calls into code outside it. Its `getInitials` is the one modelled in `DeveloperDashboard`.
- The colour maps are written out separately in the developer dashboard, the detail dialog and the user dashboard, and `getInitials` in the developer dashboard, the detail dialog and the header. The copies are identical, so each is modelled once in `DeveloperDashboard`. The status label `replace("-", " ")` is likewise modelled once as `DeveloperDashboard.StatusLabel`.
- `next.config.mjs` is build configuration only.
- JSX rendering, toasts, CSS class strings (only the choice of colour is kept), `console.error` and `router` navigation are not modelled.
- `new Date(...).toLocaleDateString()` is locale-dependent and is not modelled. The session's `expire` is kept as the text the service sends, not parsed into a date.
- The screenshot size in MB (`toFixed(2)`) is floating point and is not modelled.
- React effect scheduling, dependency arrays, interleaving of concurrent `async` handlers, and the lifetime of the realtime subscription are not modelled. Each handler is modelled on its own, and a realtime message is handled as a function of its event list.
- The form's project list (`fetchProjects`, `isLoadingProjects`) is not modelled. It only fills a selector.
- Appwrite query semantics (`Query.equal`, `Query.orderDesc`) belong to the service. A fetched list is an opaque oracle answer.
- Realtime payloads and listed documents are cast to `Task` without checks. The model assumes a payload carries every attribute key of `Task`, so an update message overrides every field. It keeps `type` and `status` as raw strings, which is why the colour maps have a default.
- `toUpperCase` is modelled for ASCII letters only. Other code units are kept as they are.
- The matcher is modelled as the regular expression written in `config.matcher`: anchored, case-sensitive, with `.` excluding line terminators. How the framework compiles matchers (trailing slashes, locale prefixes, data routes) is not modelled.
- A failure of `cookies()` itself inside `getLoggedInUser` would also yield null. The model takes the cookie jar as an input and does not model that failure.
- `addTask` does not de-duplicate ids, and the store has no clear/reset action. The model keeps both facts, and `Store.AddTaskPrepends` states the first.
- The middleware and the dashboard page each call `getLoggedInUser` on their own. `DashboardPage.GuardedDashboardRenders` assumes both calls resolve the same user; a session deleted or an account lookup failing between the two is not modelled, and then the page redirects to `/login` although the guard let the request through.
- Task statuses are `open`, `in-progress` and `closed`, with a hyphen, as the code writes them.
- DeveloperDashboard.StatusLabel: its own contract states only the length. The exact labels are stated by `InProgressLabel`, `PlainStatusLabels` and `OnlyFirstHyphen`.
