# TaskFlow front end: a verified model of its client-side logic

TaskFlow is a Next.js front end for a multi-project task tracker. This
project models in Dafny the four pieces of its client-side logic that have
precise behaviour, and proves properties of them:

- **Dashboard loading and statistics** (`app/dashboard/page.tsx`).
  `fetchData` accepts the project list in either response shape. It fetches
  each project's tasks, and a rejected fetch becomes an empty list. It merges
  the per-project lists into one list, stamping each task with its project's
  id. `handleCreateProject` refuses blank names. The page shows three counters
  and a rounded completion percentage per project.
- **Session store** (`app/context/AuthContext.tsx`). The store holds `user`,
  `authLoading` and the `token` cookie. `login`, `logout` and the start-up
  `checkAuth` change these; `register` only forwards its request.
- **Overdue highlight** on a task card (`app/components/TaskCard.tsx`).
- **Login/registration form** (`app/Login.tsx`). `handleSubmit` manages the
  `error`, `loading` and `isLoginView` fields, and the form has a view toggle.

Remote calls are not performed. Each one is an outcome passed in as a
parameter:

- a project or task read is a `Reply` (a body, or a rejection), given once
  per project index;
- the login and registration endpoints are functions from the request to the
  reply, so each contract can say exactly which request was sent;
- the creation post is a success flag.

Dates are integer timestamps and "now" is a parameter. The cookie jar is a
map from cookie name to value and lifetime.

Modules:

- `Wrappers`: `Option` and `Result`.
- `JsString`: `trim`, ASCII `toLowerCase`, string truthiness.
- `Seqs`: `filter` and the flattening of a list of lists.
- `Domain`: tasks, projects, users and thrown errors.
- `TaskCard`, `Dashboard`, `AuthContext`, `LoginPage`: one per source file.

Stateful parts are classes whose methods state their whole new state:
`Dashboard.DashboardPage`, `AuthContext.AuthProvider` and
`LoginPage.LoginForm`. `AuthProvider.Consistent()` is a stated invariant: a
signed-in user's `token` field equals the `token` cookie. The constructor and
`Startup` establish it, and `Login`, `Logout` and `CheckAuth` preserve it; no
operation requires it. `DashboardPage.FetchData` is proved against the pure
function `Dashboard.AfterFetch`. The merge loop `MergeResponses` is proved
against the reference function `Merged`, a flattening of the stamped
per-project lists.

Behaviour worth knowing, as the code has it:

- A 100% progress does NOT mean every task is done. Rounding half up,
  199 done out of 200 already shows 100 (`NearlyDoneShowsHundred`). The exact
  condition is that at most half a percent of the tasks is unfinished
  (`HundredExactly`).
- The code does not replace the snapshot atomically, and a failed project
  fetch leaves the previous snapshot in place:
  - a rejected project fetch, or a `null` body, leaves the old projects and
    tasks in place;
  - the project list is stored before the tasks are fetched;
  - if reading one task response throws, the new projects stand beside the
    old tasks;
  - with zero projects, the old tasks stay.
- `handleCreateProject` refuses a blank name but posts the name untrimmed. A
  rejected post propagates; nothing is cleared and nothing is reloaded.
- In registration mode only the empty name is refused (`!name`). A name made
  only of spaces is sent.
- `new Date("YYYY-MM-DD")` reads a date-only `due_date` as midnight UTC, so
  a task turns OVERDUE at 00:00 UTC on its due day; west of UTC that is the
  local evening before. The model compares integer timestamps and leaves this
  conversion to whoever supplies them.
- `checkAuth` restores `{ token }` only for a non-empty token cookie. With no
  cookie it leaves `user` as it was. At start-up that is `null`.

## Model

| member | source | states |
|---|---|---|
| `JsString.Trim` | app/dashboard/page.tsx:46 | `trim` yields the input with a white-space-only prefix and suffix cut off, itself with no leading or trailing white space; it is empty exactly when the input is all white space |
| `JsString.Lower` | app/Login.tsx:23 | `toLowerCase` keeps the length and maps each character through `LowerChar`, which lower-cases A to Z and keeps every other character |
| `Seqs.Filter` | app/dashboard/page.tsx:57 | `filter` keeps exactly the elements that satisfy the predicate, and never more than the input has |
| `Seqs.FilterMultiset` | app/dashboard/page.tsx:57 | `filter` keeps each matching element exactly as many times as it occurs in the input and drops every other, so its `length` counts the matches |
| `Domain.TokenOf` | app/dashboard/page.tsx:16 | `user?.token` is defined exactly when there is a user with a `token` field, and is then that field's value |
| `TaskCard.IsOverdue` | app/components/TaskCard.tsx:5 | only a task with a parsable due date and a status other than 'Done' can be overdue, and such a task is overdue exactly when the date is strictly before now |
| `TaskCard.UnsetNeverOverdue` | app/components/TaskCard.tsx:5 | a task with a falsy `due_date` is never overdue |
| `TaskCard.UnparsableNeverOverdue` | app/components/TaskCard.tsx:5 | an unparsable due date (an Invalid Date) never makes a task overdue |
| `TaskCard.DoneNeverOverdue` | app/components/TaskCard.tsx:5 | a task whose status is 'Done' is never overdue, whatever its date |
| `TaskCard.OverdueExactly` | app/components/TaskCard.tsx:5 | a task with a due date is overdue if and only if the date is strictly before now and the status is not 'Done' |
| `TaskCard.DueNowNotOverdue` | app/components/TaskCard.tsx:5 | a task due exactly now is not overdue, because the comparison is strict |
| `TaskCard.OverdueStaysOverdue` | app/components/TaskCard.tsx:5 | a task overdue at one time is overdue at every later time |
| `TaskCard.OverdueExample` | app/components/TaskCard.tsx:5 | a task due on 2024-01-01 whose status is not 'Done' is overdue on 2025-01-01; the same task marked 'Done' is not |
| `TaskCard.DueLineOf` | app/components/TaskCard.tsx:29-31 | "No date" is shown exactly when `due_date` is falsy; the " (OVERDUE)" mark appears exactly when the task is overdue, and then next to a real date |
| `TaskCard.DueText` | app/components/TaskCard.tsx:30-31 | the date line reads "No date" for an unset date, "Invalid Date" for an unparsable one, and otherwise the formatted date, followed by " (OVERDUE)" exactly when the task is overdue |
| `Dashboard.ListInShapes` | app/dashboard/page.tsx:20 | an array body is read as itself, an object body as its `projects` field, and an object without that field as the empty list |
| `Dashboard.TasksInShapes` | app/dashboard/page.tsx:25-30 | a rejected task fetch reads as the empty list; a resolved one as its body's list |
| `Dashboard.Stamp` | app/dashboard/page.tsx:31 | each task keeps its fields and gets the project's id in place of any `project_id` it carried |
| `Dashboard.PushStamped` | app/dashboard/page.tsx:31 | the inner loop appends the response's tasks, stamped, in response order |
| `Dashboard.MergeResponses` | app/dashboard/page.tsx:28-32 | the nested loops complete exactly when no response body is `null`, and then yield the reference merge `Merged` |
| `Dashboard.MergedMembers` | app/dashboard/page.tsx:29-31 | a task is merged exactly when it is task j of response i, stamped with the id of project i |
| `Dashboard.MergedOwned` | app/dashboard/page.tsx:31 | every merged task's `project_id` is the id of one of the loaded projects |
| `Dashboard.MergedLength` | app/dashboard/page.tsx:28-33 | the merged list is as long as all responses together |
| `Dashboard.MergedSplit` | app/dashboard/page.tsx:28-33 | the merge is ordered by project, then by response: the projects before i, then project i's tasks, then the projects after i |
| `Dashboard.FailedFetchTolerated` | app/dashboard/page.tsx:24-27 | a rejected task fetch does not abort the merge; that project contributes nothing and all other projects' tasks are merged in order |
| `Dashboard.SecondFetchFails` | app/dashboard/page.tsx:24-33 | with two projects whose second task fetch is rejected and whose first response is readable (any body but `null`), the load yields exactly the first project's tasks, stamped |
| `Dashboard.ProjectTasksAfterLoad` | app/dashboard/page.tsx:96 | with distinct project ids, a project card's tasks after a load are exactly its own response, stamped |
| `Dashboard.AfterFetch` | app/dashboard/page.tsx:15-36 | without a token the state is untouched; otherwise `loading` ends false; a rejected or `null` project response keeps projects and tasks; a readable one replaces the projects with its list, and replaces the tasks with the merge exactly when there is a project and every task response is readable, else keeps them |
| `Dashboard.FullLoad` | app/dashboard/page.tsx:20-33 | an array body and an object body with a `projects` field are read alike; a complete load replaces the whole snapshot |
| `Dashboard.MissingProjectsField` | app/dashboard/page.tsx:20 | an object body without `projects` reads as no projects, and the previous tasks stay |
| `Dashboard.EmptyProjectList` | app/dashboard/page.tsx:20-23 | an empty project array loads no projects and keeps the previous tasks |
| `Dashboard.NullTaskBody` | app/dashboard/page.tsx:21-33 | a `null` task body throws after the projects are stored: the new projects stand beside the old tasks |
| `Dashboard.OnSessionChange` | app/dashboard/page.tsx:38-43 | while the session is unresolved the page neither redirects nor loads; once resolved it redirects exactly when nobody is signed in |
| `Dashboard.DashboardPage.constructor` | app/dashboard/page.tsx:10-13 | the page starts with no projects, no tasks, `loading` true and an empty name input |
| `Dashboard.DashboardPage.FetchData` | app/dashboard/page.tsx:15-36 | the new projects, tasks and loading flag are those of `AfterFetch`; the name input is untouched |
| `Dashboard.DashboardPage.CreateProject` | app/dashboard/page.tsx:45-50 | a blank name issues no request and changes nothing; a missing user or a rejected post changes nothing; a successful post sends the name as typed, clears the input and reloads |
| `Dashboard.StatsOf` | app/dashboard/page.tsx:55-57 | the completed count plus the count of tasks not done is the task total, so the completed count never exceeds the total |
| `Dashboard.Percent` | app/dashboard/page.tsx:99 | the progress is 0 without tasks; otherwise it is the integer nearest to 100·done/total, with halves rounded up; it is at most 100 when done ≤ total |
| `Dashboard.HundredExactly` | app/dashboard/page.tsx:99 | the progress is 100 if and only if at most half a percent of the tasks is unfinished; all tasks done gives 100 |
| `Dashboard.NearlyDoneShowsHundred` | app/dashboard/page.tsx:99 | 199 done out of 200 shows 100 |
| `Dashboard.ZeroExactly` | app/dashboard/page.tsx:99 | the progress is 0 if and only if there are no tasks or fewer than half a percent are done |
| `Dashboard.PercentExamples` | app/dashboard/page.tsx:99 | 1 of 3 shows 33, 1 of 2 shows 50, 2 of 3 shows 67 |
| `Dashboard.CardOf` | app/dashboard/page.tsx:96-99 | a card counts the tasks whose `project_id` is the project's id and the 'Done' tasks among them, and shows `Percent` of the two; the done count is at most the total, and the progress lies within 0 to 100 |
| `Dashboard.StampKeepsDone` | app/dashboard/page.tsx:31 | stamping keeps the number of done tasks |
| `Dashboard.CardAfterLoad` | app/dashboard/page.tsx:96-99 | after a load with distinct project ids, a card's total, done count and progress are those of its own response |
| `Dashboard.CardExtremes` | app/dashboard/page.tsx:99 | a card shows 100 exactly when it has tasks and at most half a percent are unfinished, and 0 exactly when it has none or fewer than half a percent are done |
| `AuthContext.SessionUser` | app/context/AuthContext.tsx:16 | the session user has every field of the response's user, with `token` set to the response's token |
| `AuthContext.CookieValue` | app/context/AuthContext.tsx:38 | `Cookies.get` is defined exactly when the cookie exists, and is then its value |
| `AuthContext.RestoredUser` | app/context/AuthContext.tsx:37-45 | the restored identity exists exactly when the token cookie is non-empty, and it is `{ token }` alone |
| `AuthContext.AuthProvider.constructor` | app/context/AuthContext.tsx:9-10 | the store starts with `user` null and `authLoading` true |
| `AuthContext.AuthProvider.Login` | app/context/AuthContext.tsx:12-25 | the credentials are sent unmodified; on success the token is stored in the `token` cookie for 7 days and the user becomes the response's user plus token; on failure the error is passed on and nothing changes; the user's token always matches the cookie |
| `AuthContext.AuthProvider.Logout` | app/context/AuthContext.tsx:27-30 | the `token` cookie is removed and the user is null |
| `AuthContext.AuthProvider.Register` | app/context/AuthContext.tsx:32-34 | the request is forwarded as given and its outcome returned; neither the user nor the cookies change |
| `AuthContext.AuthProvider.CheckAuth` | app/context/AuthContext.tsx:37-45 | a non-empty token cookie restores `{ token }`; otherwise the user is left as it was; `authLoading` becomes false |
| `AuthContext.Startup` | app/context/AuthContext.tsx:36-47 | after mounting, the session is resolved and the user is `{ token }` exactly when a non-empty token cookie exists, else null |
| `LoginPage.NormalizeEmail` | app/Login.tsx:23 | the normalised email is the trimmed input lower-cased character by character; so it has no surrounding white space and no upper-case ASCII letter, and is empty exactly when the input is blank |
| `LoginPage.NormalizeIdempotent` | app/Login.tsx:23 | normalising a normalised email gives it back |
| `LoginPage.ErrorText` | app/Login.tsx:32 | the message shown is never empty; it is the server's message if present, else the error's message, else 'Something went wrong' |
| `LoginPage.SubmitCall` | app/Login.tsx:22-27 | the login view calls `login`; the registration view calls nothing when the name is empty, else `register`; the email is normalised and the password passed unchanged |
| `LoginPage.BlankNameNotRefused` | app/Login.tsx:26 | a name of spaces only is not refused |
| `LoginPage.NameErrorShown` | app/Login.tsx:26 | a missing name shows "Please enter your name" |
| `LoginPage.LoginForm.constructor` | app/Login.tsx:10-15 | the form starts in the login view with empty fields, no error and not loading |
| `LoginPage.LoginForm.BeginSubmit` | app/Login.tsx:18-19 | on entry the error is cleared and `loading` is set |
| `LoginPage.LoginForm.SubmitLogin` | app/Login.tsx:22-24 | `login` is called with the given credentials; the dashboard is reached exactly when the server accepts; acceptance stores the session user and the seven-day token cookie; a refusal shows its `ErrorText` and leaves the session untouched |
| `LoginPage.LoginForm.SubmitRegistration` | app/Login.tsx:27-29 | `register` is called with the given registration; success switches to the login view; a refusal shows its `ErrorText` and keeps the view |
| `LoginPage.LoginForm.Submit` | app/Login.tsx:17-36 | the call made is `SubmitCall`'s; a successful login leaves the error empty and goes to the dashboard; a successful registration switches to the login view; every failure shows its `ErrorText`; only a successful login changes the session; `loading` ends false |
| `LoginPage.LoginForm.ToggleView` | app/Login.tsx:107-110 | toggling flips the view and clears the error |

## Left out

- HTTP transport, bearer headers and `js-cookie`: every remote call is an outcome passed in, and the cookie jar is a map. Cookie paths and expiry clocks are not modelled; the lifetime in days is kept.
- `Promise.all` concurrency, and overlapping loads racing to write the state: the task replies are a sequence with one entry per project index, and every operation runs to completion.
- The reload after a project is created is not awaited in the source. The model runs it to completion before `CreateProject` returns.
- Rendering: JSX, Tailwind classes, the priority colour table, `router.push`, `alert` and `console.error`. A submit's navigation to the dashboard is reported by `Submit`'s `toDashboard` result.
- React effect scheduling and `useCallback` dependencies: the effect's decision is the function `OnSessionChange`.
- `new Date` parsing, time zones and `toLocaleDateString`: dates are integers, an unparsable date is its own case, and the locale's date formatting is a parameter of `DueText`.
- `Dashboard.Percent`: does not model floating-point `Math.round(done / total * 100)`. It is exact round-half-up, `(200·done + total) div (2·total)`, so it can differ from the browser when the float product rounds just below a half.
- `JsString.Lower`: maps only the ASCII letters A to Z, not the full Unicode case mapping of `toLowerCase`.
- JSON values are untyped in the source. Here tasks and projects are records with string or integer fields, a user is a map from field name to string value (so a non-string field such as a numeric `id` is not represented), and a response body is an array, an object with an optional list field, or `null`. Other body shapes, such as a non-array value where a list is expected, are not modelled.
- `isOverdue` in the source evaluates to the falsy `due_date` itself or to a boolean. It is only used for its truthiness, so it is a boolean function here.
- app/layout.tsx only wires providers and fonts. The task board page (app/project/[id]/page.tsx) holds the task creation, edit, move and delete flows; these are not part of this model.
