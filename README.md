# TaskFlow frontend: a Dafny model of its decision and state logic

TaskFlow's web client is a thin React front end over an external HTTP API. This project models
the part of it that makes decisions or keeps state, with every network call replaced by its
outcome as a parameter:

- **The task board** (`TaskBoard`). Three columns (`pending`, `completed`, `done`) are views of a
  local mirror of the server's task list. The drag handler refuses drops onto unknown columns
  and drops onto the same column. For an accepted drop it rewrites the task's status in a copy
  of the list, issues the status request, and rolls the whole list back to its pre-move
  snapshot if the request fails. The delete handler works on the task chosen in the
  confirmation dialog. `Board` is a class whose fields are the component's state: `localTasks`,
  `errorMessage`, `showDeleteModal`. The drag handler is split at its `await`: `StartDrag` does
  the part before it, `FinishDrag` the part after, and `HandleDragEnd` does both.
- **The task API slice** (`TaskService`). Each endpoint's request (verb, URL, body) and its cache
  tags.
- **The task form** (`TaskForm`). The title and description rules, and the submit handler that
  updates or creates, along with its error fallback chain.
- **Email verification** (`VerifyEmail`). The resend cooldown, counted down by an explicit
  `Tick`; the resend guard and its outcomes; the resend button's disabled state and label; the
  verify submission.
- **Registration** (`Register`) and **password change** (`ChangePassword`). What each submission
  shows: the error-status table, the three-way result handling, the `loading` flag and the form
  reset.

Shared modules:

- `Js` models the bits of JavaScript evaluation the handlers depend on: `||` on strings that may
  be undefined, and `${n}` for a number.
- `Api` models how RTK Query delivers a mutation's result. The trigger resolves to `{ data }` or
  `{ error }`; `.unwrap()` throws the error.
- `Ui` models the `{ type, content }` message banner and navigation.

All "## Model" paths are relative to the repository root. A successful registration navigates at
once (`src/app/account/register/page.jsx:26`); the model uses a `Navigation` with delay 0.

Overlapping drags are flagged, not fixed. `OverlappingDragsLoseConfirmedMove` shows that the
rollback of a failed move restores its whole snapshot. That discards a second move made in the
meantime, even one whose request succeeded.

## Model

| member | source | states |
|---|---|---|
| `Js.Or` | src/components/TaskForm.jsx:49 | `a \|\| b` on a string that may be undefined is truthy exactly when `a` or `b` is |
| `Js.OrPicksTruthy` | src/components/TaskForm.jsx:49 | `a \|\| b` is `a` when `a` is a non-empty string and `b` otherwise, so it is never "" when the fallback is non-empty |
| `Js.Decimal` | src/app/account/verify-email/page.jsx:150 | `${n}` is a non-empty string of decimal digits without a leading zero |
| `Js.ValueOfDecimal` | src/app/account/verify-email/page.jsx:150 | reading the digits of `${n}` back gives `n` |
| `Js.DecimalInjective` | src/app/account/verify-email/page.jsx:150 | different numbers are rendered differently |
| `Api.StatusOf` | src/app/account/register/page.jsx:30-34 | `error.status` is the payload's status; an Error object such as a TypeError has none |
| `Api.DataMessageOf` | src/components/TaskForm.jsx:49 | `err.data?.message` is present only for a payload with a body, and is that body's message; an Error object has none |
| `Api.MessageOf` | src/components/TaskForm.jsx:49 | `err.message` is present exactly for an Error object, and is its message |
| `Api.MessageText` | src/app/account/verify-email/page.jsx:27 | the content shown for `data.message` of a success body: the server's message, or "" when it is absent |
| `Api.Unwrap` | src/app/user/task/page.jsx:87 | `.unwrap()` throws exactly when the result is an error, and throws that error's payload |
| `Api.DestructureAndReadMessage` | src/app/account/register/page.jsx:24-25 | `const { data } = await m(v)` followed by `data.message` throws exactly on an error result, and what it throws has neither a status nor a server message |
| `TaskService.FullUrl` | src/lib/services/tasks.js:5-6 | a request goes to the base URL followed by its relative URL, both kept whole |
| `TaskService.Lookup` | src/lib/services/tasks.js:24 | reading `taskId` from the argument gives undefined exactly when it is absent, and its value otherwise |
| `TaskService.GetTasksQuery` | src/lib/services/tasks.js:5-14 | the list query is a GET of the base URL itself, with no body |
| `TaskService.CreateTaskQuery` | src/lib/services/tasks.js:15-22 | create is a POST to the base URL whose body is exactly the given task object |
| `TaskService.UpdateTaskQuery` | src/lib/services/tasks.js:23-30 | update is a PUT to `${taskId}` (the text "undefined" when the id is missing); its body holds every field except `taskId`, each unchanged, and nothing else |
| `TaskService.UpdateTaskStatusQuery` | src/lib/services/tasks.js:31-38 | a status update is a PATCH to `taskId + "/status"` whose body has the single key `status` |
| `TaskService.DeleteTaskQuery` | src/lib/services/tasks.js:39-45 | delete is a DELETE of `${taskId}` with no body |
| `TaskService.Interpolate` | src/lib/services/tasks.js:25 | a template literal shows an undefined id as "undefined", a string id as itself, and a non-negative number as its digits without a leading zero, which read back as it |
| `TaskService.ProvidesTags` | src/lib/services/tasks.js:13 | only the list query provides tags, and the only tag is `Tasks` |
| `TaskService.InvalidatesTags` | src/lib/services/tasks.js:21-44 | every mutation, and only a mutation, invalidates tags, and the only tag is `Tasks` |
| `TaskService.UpdateTaskSplitsIdFromDraft` | src/lib/services/tasks.js:24-27 | adding `taskId` to a draft and building the update sends exactly the draft to exactly that id |
| `TaskService.UpdateTaskLosesNothing` | src/lib/services/tasks.js:24-27 | the update argument is recovered from the request's URL and body (the round trip of the rest-destructuring) |
| `TaskService.StatusUrlIdentifiesTask` | src/lib/services/tasks.js:33 | status updates of different tasks go to different URLs |
| `TaskService.TaskUrlsShareResource` | src/lib/services/tasks.js:23-45 | update and delete of a task address the same URL, and its status URL is that URL plus `/status` |
| `TaskService.MutationsInvalidateTaskList` | src/lib/services/tasks.js:11-45 | the list query provides only `Tasks`, and every mutation invalidates every tag the list provides |
| `TaskService.TagsAreDeclared` | src/lib/services/tasks.js:9-45 | every tag an endpoint provides or invalidates is one of the declared `tagTypes` |
| `TaskBoard.TasksByColumn` | src/app/user/task/page.jsx:60-61 | a column holds only tasks of its status, holds every task of its status, and is no longer than the list |
| `TaskBoard.TasksByColumnAppend` | src/app/user/task/page.jsx:60-61 | the column of a concatenation is the concatenation of the columns, so the relative order of tasks is kept |
| `TaskBoard.TasksByColumnSingleton` | src/app/user/task/page.jsx:60-61 | a single task is in a column exactly when its status is that column (with the previous row, this pins the filter down completely) |
| `TaskBoard.ColumnsPartitionBoard` | src/app/user/task/page.jsx:165-188 | when every task has one of the three statuses, the three columns together show each task exactly once |
| `TaskBoard.WithStatus` | src/app/user/task/page.jsx:81-83 | the optimistic list has the same length and order; every task with the dragged id gets the new status; other tasks are unchanged, and so is every other field |
| `TaskBoard.MovedTaskChangesColumn` | src/app/user/task/page.jsx:77-84 | after a move, the moved task is in the destination column, no task with its id is in the source column, and every other task stays in its own column |
| `TaskBoard.WithStatusIdempotent` | src/app/user/task/page.jsx:81-83 | applying the same move twice gives the same list as applying it once |
| `TaskBoard.DragRejection` | src/app/user/task/page.jsx:63-75 | the unknown-column message exactly when the destination is absent or not a column; the same-column message exactly when it equals the source; acceptance otherwise |
| `TaskBoard.Board.constructor` | src/app/user/task/page.jsx:44-49 | the board starts with no tasks, no error and no task chosen for deletion |
| `TaskBoard.Board.ReceiveServerTasks` | src/app/user/task/page.jsx:54-58 | a list from the server, even an empty one, replaces the mirror wholesale; no data leaves it as it is |
| `TaskBoard.Board.StartDrag` | src/app/user/task/page.jsx:63-84 | a refused drop sets its message, leaves the list unchanged and issues no request; an accepted drop applies `WithStatus`, issues the status request, and keeps the pre-move snapshot |
| `TaskBoard.Board.FinishDrag` | src/app/user/task/page.jsx:86-94 | success clears the error and keeps the optimistic list; failure sets the failure message and restores exactly the snapshot |
| `TaskBoard.Board.HandleDragEnd` | src/app/user/task/page.jsx:63-95 | the whole handler: refusals change nothing but the message; an accepted move ends with the optimistic list and no error, or with the original list and the failure message |
| `TaskBoard.Board.AskToDelete` | src/app/user/task/page.jsx:233-237 | the card's delete button chooses that task for deletion |
| `TaskBoard.Board.DeleteDialogOpen` | src/app/user/task/page.jsx:98 | the dialog is open, and a delete can go ahead, exactly while a non-empty task id is chosen (`!!showDeleteModal`) |
| `TaskBoard.Board.CloseDeleteDialog` | src/app/user/task/page.jsx:259-261 | closing the dialog clears the choice |
| `TaskBoard.Board.HandleDelete` | src/app/user/task/page.jsx:97-109 | with no task chosen nothing changes and no request is issued; otherwise the delete request is issued, the choice is cleared on success and failure alike, and only failure sets the delete-failure message |
| `TaskBoard.OverlappingDragsLoseConfirmedMove` | src/app/user/task/page.jsx:80-94 | when two drags overlap and the first fails after the second succeeded, the list ends as the first drag's snapshot, so no task with the second task's id is in the done column although its move was confirmed |
| `TaskForm.TitleError` | src/components/TaskForm.jsx:63-69 | a title is accepted exactly when it has 1 to 100 characters; empty gives "Title is required"; more than 100 gives "Title cannot exceed 100 characters" |
| `TaskForm.DescriptionError` | src/components/TaskForm.jsx:82-87 | a description is accepted exactly when it has at most 500 characters; otherwise the error is "Description cannot exceed 500 characters" |
| `TaskForm.TitleBoundaries` | src/components/TaskForm.jsx:63-87 | exactly 100 title characters is accepted, 101 is not, and an empty description is accepted |
| `TaskForm.Validate` | src/components/TaskForm.jsx:54-87 | a form has no field error exactly when both rules hold |
| `TaskForm.Draft` | src/components/TaskForm.jsx:35-44 | the object passed to the callbacks has exactly the keys `title` and `description`, holding the form's title and description |
| `TaskForm.SaveErrorMessage` | src/components/TaskForm.jsx:49 | the shown error is never empty; it is the server's message when there is one, else the error's own message, else "Failed to save task" |
| `TaskForm.TaskFormComponent.constructor` | src/components/TaskForm.jsx:14 | the submit error starts as "" |
| `TaskForm.TaskFormComponent.OnSubmit` | src/components/TaskForm.jsx:25-51 | with `initialData` and an `_id`, only `onUpdate({taskId, title, description})` is called; with `initialData` but no `_id`, no callback is called, `onSuccess` is not called and the error is "Invalid task ID"; without `initialData`, only `onCreate({title, description})` is called; `onSuccess` is called exactly when the save resolves; the error is "" after success and the fallback chain's message after failure |
| `TaskForm.TaskFormComponent.HandleSubmit` | src/components/TaskForm.jsx:25-54 | a form with a field error calls nothing and leaves the error as it is; a valid form behaves as `OnSubmit`: the update or create call, the "Invalid task ID" refusal, `onSuccess` exactly on resolve, and the error "" or the fallback chain's message |
| `TaskForm.UpdateSendsDraftToTask` | src/components/TaskForm.jsx:35-39 | editing sends a PUT of exactly the title and description to the edited task's id |
| `TaskForm.CreateSendsDraft` | src/components/TaskForm.jsx:41-44 | creating is a POST to the base URL of exactly the keys `title` and `description`, holding the form's values |
| `VerifyEmail.Countdown` | src/app/account/verify-email/page.jsx:16-19 | the cooldown after a number of interval callbacks never exceeds where it started, and is 0 once there have been at least that many |
| `VerifyEmail.CountdownValue` | src/app/account/verify-email/page.jsx:16-19 | after `n` ticks the cooldown `c` is `c - n`, or 0 once `n >= c`: it never goes negative and stops at 0 |
| `VerifyEmail.ResendDisabled` | src/app/account/verify-email/page.jsx:143 | the resend button is disabled exactly while the cooldown is above 0 or a resend is in flight |
| `VerifyEmail.ResendLabel` | src/app/account/verify-email/page.jsx:140-150 | the label is "Sending..." while resending, and is plain "Resend OTP" exactly when the button is enabled; otherwise it is "Resend OTP (Ns)" where N is the cooldown's digits without a leading zero |
| `VerifyEmail.ResendLabelShowsCooldown` | src/app/account/verify-email/page.jsx:150 | two counting labels are equal only for equal cooldowns: the label shows the remaining seconds |
| `VerifyEmail.CooldownBlocksResend` | src/app/account/verify-email/page.jsx:16-19 | after a successful resend the button is disabled until the 30th tick, and enabled from then on |
| `VerifyEmail.EmailRejected` | src/app/account/verify-email/page.jsx:39 | a resend is refused exactly when the email is empty or has a validation error |
| `VerifyEmail.ResendMessage` | src/app/account/verify-email/page.jsx:44-53 | success, and only success, shows "New OTP sent successfully" as a success; failure shows an error with the server's message when it is non-empty, else "Failed to resend OTP"; the message is never empty |
| `VerifyEmail.VerifyReaction` | src/app/account/verify-email/page.jsx:24-35 | success shows the server's message and schedules `/account/login` after 2000 ms; failure schedules nothing and shows the server's message, else "Verification failed" |
| `VerifyEmail.VerifyReactionOn` | src/app/account/verify-email/page.jsx:25-34 | the `try`/`catch` body: nothing thrown shows the server's message and schedules `/account/login` after 2000 ms; anything thrown schedules nothing and shows its `data.message` when non-empty, else "Verification failed" |
| `VerifyEmail.VerifyReactionAsWritten` | src/app/account/verify-email/page.jsx:26-33 | as written, success behaves as intended; every error result shows only "Verification failed" and schedules nothing |
| `VerifyEmail.VerifyHidesServerMessage` | src/app/account/verify-email/page.jsx:26-33 | for a rejected OTP with the server's message "Invalid OTP", the code as written shows "Verification failed" where "Invalid OTP" was intended |
| `VerifyEmail.VerifyEmailPage.constructor` | src/app/account/verify-email/page.jsx:11-14 | the cooldown starts at 0, with no message and nothing scheduled |
| `VerifyEmail.VerifyEmailPage.Tick` | src/app/account/verify-email/page.jsx:16-19 | an interval callback decrements the cooldown while it is above 0 and keeps it at 0 |
| `VerifyEmail.VerifyEmailPage.HandleResendOtp` | src/app/account/verify-email/page.jsx:38-54 | an empty email, or one with a validation error, issues no request, keeps the cooldown and asks for a valid email; otherwise the request is sent, success sets the cooldown to 30, and failure keeps it |
| `VerifyEmail.VerifyEmailPage.OnSubmit` | src/app/account/verify-email/page.jsx:24-35 | the corrected handler (the result unwrapped, see "## Findings"): the message and the scheduled navigation become those of `VerifyReaction`; as written, an error instead shows "Verification failed" (`VerifyReactionAsWritten`) |
| `Register.RegistrationErrorMessage` | src/app/account/register/page.jsx:27-36 | 400 gives the server's message, else "Validation error"; 409 gives "Email already registered"; 500 gives "Server error. Please try again later."; any other status, or none, gives "Registration failed"; never empty |
| `Register.RegisterReaction` | src/app/account/register/page.jsx:22-40 | the message is a success exactly for a success result. Success shows the server's message and goes straight to `/account/verify-email`. An error shows the status table's message as an error and navigates nowhere |
| `Register.RegisterReactionOn` | src/app/account/register/page.jsx:23-39 | the `try`/`catch` body: nothing thrown shows the server's message and goes straight to `/account/verify-email`; anything thrown navigates nowhere and shows the status table's message for what was thrown |
| `Register.RegisterReactionAsWritten` | src/app/account/register/page.jsx:24-38 | as written, success behaves as intended, but every error result shows "Registration failed" |
| `Register.ConflictReportedGenerically` | src/app/account/register/page.jsx:24-36 | for a 409 result, the code as written shows "Registration failed" where "Email already registered" was intended |
| `Register.RegisterPage.constructor` | src/app/account/register/page.jsx:11-20 | the form starts as four empty strings (`name`, `email`, `password`, `password_confirmation`) with no message |
| `Register.RegisterPage.OnSubmit` | src/app/account/register/page.jsx:22-40 | the corrected handler (the result unwrapped, see "## Findings"): the message and navigation become those of `RegisterReaction`; the form values are kept; as written, an error instead shows "Registration failed" (`RegisterReactionAsWritten`) |
| `ChangePassword.React` | src/app/user/change-password/page.jsx:22-34 | the form is reset exactly when the response's `data.status` is "success", and then the server's text is shown as a success. A response that is neither a success nor an error changes nothing. An error result shows `error.data.message`, or the unexpected-error message when the error has no body. Anything thrown shows "An unexpected error occurred" |
| `ChangePassword.ChangePasswordPage.constructor` | src/app/user/change-password/page.jsx:7-14 | both fields start as "", with no message and `loading` false |
| `ChangePassword.ChangePasswordPage.SubmitDisabled` | src/app/user/change-password/page.jsx:107 | the submit button is disabled exactly while `loading` is true |
| `ChangePassword.ChangePasswordPage.StartSubmit` | src/app/user/change-password/page.jsx:21 | `loading` is true, and the submit button disabled, while the request runs |
| `ChangePassword.ChangePasswordPage.FinishSubmit` | src/app/user/change-password/page.jsx:22-34 | `loading` is false on every exit path; the message and values change as `React` says, and they are reset only on success |
| `ChangePassword.ChangePasswordPage.OnSubmit` | src/app/user/change-password/page.jsx:20-35 | a whole submission ends with `loading` false, the values reset exactly on success, and the message kept when the result is neither a success nor an error |

## Left out

- Rendering, styling, theming and animation in every screen: these are presentation only.
- The login, resend-OTP, password-reset and profile screens, and the two navigation bars. These are wrappers around a single request, or cookie reads, with nothing to state beyond a fallback message.
- `handleTaskFormSuccess`, `handleEditTask` and the `showTaskForm` toggle (src/app/user/task/page.jsx:111-120, 135): they only open and close the form.
- The task form's prefill effect (src/components/TaskForm.jsx:16-23) and its cancel button.
- The validation schemas of the login, registration, verification and password screens. Their module (`@/validation/schemas`) is not part of this model. Those `onSubmit` handlers are modelled for submissions the schema has let through. On the verify screen, the email's schema error is a parameter of `HandleResendOtp`.
- The auth API slice (`@/lib/services/auth`) is not part of this model. Its requests appear only through their results.
- Network I/O, RTK Query's caching and refetching. Each call is a `MutationResult` parameter. The refetch after a successful move or delete is `Board.ReceiveServerTasks`, a separate step.
- `isResending` is the mutation's loading flag, kept by RTK Query; it is a parameter of `ResendLabel`.
- Timers. The cooldown interval is the explicit `Tick` step. The redirect `setTimeout` is a scheduled `Navigation` value. Clearing timers on unmount is not modelled.
- Concurrency. Interleaved resolution of asynchronous requests is modelled only by the overlapping-drags scenario. The whole-snapshot rollback is modelled as written.
- `console.error` logging, the Google sign-in `window.open`, and the drag-and-drop library (which supplies `source`, `destination` and `draggableId`) are left out.
- An absent `message` in a server body is shown as "". In the source the content is `undefined`; both hide the banner.
- TaskForm.TitleError, TaskForm.DescriptionError: lengths are counted in Unicode characters. JavaScript counts UTF-16 code units, so a character outside the Basic Multilingual Plane counts twice in the source.
- TaskService.FullUrl: the base URL and the relative URL are concatenated. fetchBaseQuery's special handling of absolute URLs, leading slashes and `?` is not modelled; task ids contain none of those.
- TaskService.Interpolate: JSON numbers are integers only; floating-point rendering is not modelled.
- VerifyEmail.VerifyEmailPage.OnSubmit, Register.RegisterPage.OnSubmit: the screen classes apply the corrected reactions of "## Findings" (the result unwrapped). They do not show the as-written behaviour, where every error result gives the generic message; that behaviour is `VerifyReactionAsWritten` and `RegisterReactionAsWritten`.
- TaskService.UpdateTaskStatusQuery, TaskService.DeleteTaskQuery: they take the destructured strings that their only callers pass, not an arbitrary argument object.

## Findings

| source | as written | input that shows it | evidently intended | confidence | as-written member | corrected member |
|---|---|---|---|---|---|---|
| src/app/account/register/page.jsx:24-36 | `createUser(values)` is awaited without `.unwrap()`. An error result then has `data` undefined, so reading `data.message` throws a TypeError. That TypeError has no `status`, so the 400/409/500 branches never run | a 409 error result | "Email already registered" (and the other statuses' messages) | medium, not executed; relies on RTK Query triggers resolving to `{ error }`, the convention change-password/page.jsx:23-28 uses | `Register.RegisterReactionAsWritten`, `Register.ConflictReportedGenerically` | `Register.RegisterReaction` |
| src/app/account/verify-email/page.jsx:26-33 | `verifyEmail(values)` is awaited without `.unwrap()`. An error result then throws a TypeError when `data.message` is read, so `error.data?.message` is always undefined | a 400 error result whose body message is "Invalid OTP" | the server's message "Invalid OTP" | medium, not executed; same reasoning as above | `VerifyEmail.VerifyReactionAsWritten`, `VerifyEmail.VerifyHidesServerMessage` | `VerifyEmail.VerifyReaction` |
