# User management system: tasks, working hours and notes

This project models the core of a small Express/React application. People
with the roles Root, Admin and User use it to keep tasks, working and sleep
hours, notes and goals. The model has two halves.

**The server side:**

- the bearer-token gate in front of every private route;
- the task routes, with their role guards;
- the Mongoose task schema;
- the ten task handlers, as methods of a `Store` class whose `tasks` map
  they update in place.

**The browser side:**

- The session: the login record, the working-hours context, and the axios
  interceptors that attach the token, refresh it once and log out. Modelled
  as a `ClientSession` class.
- The pure helpers of the pages: duration formatting, the health bands, the
  statistics, the calendar grid, the month stepping, the task and note
  filters, the tag list, the card preview, the goal list and the home
  counts. These are functions with lemmas.
- The page handlers that check input, send one request and set error flags.
  These are methods on small classes for the page state.

Three behaviours of the code are easy to misread; the model follows the code:

- `router.use('/assign', …)` in `backend/routes/task.js` is an Express
  prefix guard, so GET `/assign/:id` is also refused to plain users (see
  `TaskRoutes.GetAssignNeedsRootOrAdmin`).
- `delete` and `deleteAssign` compare an array with an id using `===`. That
  test never holds, so only Root may delete (`TaskStore.DeleteRightIsRoot`).
- `task[req.roles]` looks up the role list's text form. A caller with two
  roles therefore finds no list and gets a 404 (`TaskStore.Store.GetAll`).

Modelling conventions:

- Times are whole minutes since some origin.
- The clock, the JWT check, the decoding of a refreshed token and every
  server answer are parameters.
- A React render that throws a `TypeError` is a `None` result or a `crashed`
  flag.
- JavaScript's truncating `%`, `Math.floor` and `Math.round` are written out
  in `JsMath`.

## Model

| member | source | states |
|---|---|---|
| Accounts.SingleRoleKey | backend/controllers/task.js:17 | a one-role array is looked up under the role's own name |
| Accounts.MultiRoleKeyIsNoRole | backend/controllers/task.js:17 | an array of two or more roles is looked up under a key with a comma, which names no role |
| Accounts.IncludesOwnRole | backend/controllers/task.js:123 | `includes` finds a role both in a role string and in a one-role array |
| TaskModel.ParseStatus | backend/models/Task.js:22-27 | a status string is accepted only as the name of one of the three statuses |
| TaskModel.ParsePriority | backend/models/Task.js:28-32 | a priority string is accepted only as the name of one of the three priorities |
| TaskModel.StatusNamesRoundTrip | backend/models/Task.js:26 | the status enumeration and its names correspond one to one |
| TaskModel.PriorityNamesRoundTrip | backend/models/Task.js:31 | the priority enumeration and its names correspond one to one |
| TaskModel.Create | backend/models/Task.js:3-37 | a document is created exactly when title and description are non-empty and the status and priority, when given, are in their enumerations; a created task always has a non-empty title and description; it keeps the given fields, applies the defaults and records the creation time |
| TaskModel.CreateDefaults | backend/models/Task.js:25 | a draft without status or priority is stored as pending with medium priority |
| TaskRoutes.RouteRespectsRoles | backend/routes/task.js:6-27 | every handled request passed a role guard that admits the caller's roles |
| TaskRoutes.RootPathsOpen | backend/routes/task.js:6-9 | GET and POST on the root path reach getAll and create for every role |
| TaskRoutes.PrefixGuardsRefuse | backend/routes/task.js:12-15 | any path under /inspect or /assign is refused to callers who are neither Root nor Admin |
| TaskRoutes.InspectAndAssignNeedRootOrAdmin | backend/routes/task.js:12-15 | POST /inspect and POST /assign, which list no roles themselves, reach inspect and assignUser if and only if the caller is Root or Admin |
| TaskRoutes.GetAssignNeedsRootOrAdmin | backend/routes/task.js:15-21 | GET /assign/:id reaches getAssignUser if and only if the caller is Root or Admin |
| TaskRoutes.ByIdRoutes | backend/routes/task.js:24-27 | GET and PATCH /:id are open to every role; DELETE /:id is handled exactly for Root or Admin |
| TaskRoutes.AssignRoutes | backend/routes/task.js:18-22 | DELETE /assign/:id and GET /notassign/:id are handled exactly for Root or Admin |
| RequireAuth.Gate | backend/middleware/requireAuth.js:5-76 | a missing or non-Bearer header or an empty token is 401; a token of a known but blocked account is 400 "Your account has been blocked" and is the only answer that clears the cookie; a request passes exactly when the token decodes to a known active user, whose roles are passed on |
| RequireAuth.VerifyFailures | backend/middleware/requireAuth.js:22-36 | an expired token, a malformed token and any other failure give 403 with their three messages |
| RequireAuth.UnknownUser | backend/middleware/requireAuth.js:39-53 | a token without a user id, or with an unknown id, is refused with 401 |
| RequireAuth.TokenOfHeader | backend/middleware/requireAuth.js:16 | the token is the text after "Bearer " up to the next space |
| RequireAuth.EmptyTokens | backend/middleware/requireAuth.js:16-20 | "Bearer " alone, or followed by a second space, gives an empty token, which every gate refuses with 401 |
| TaskStore.InsertByDate | backend/controllers/task.js:12 | inserting keeps a list newest-first and adds exactly the new document |
| TaskStore.InsertOnce | backend/controllers/task.js:12 | inserting a new document keeps every document once and adds only that document |
| TaskStore.AddToSet | backend/controllers/task.js:209 | `$addToSet` keeps the old list as a prefix and each old id's count; it appends only ids not yet present, each exactly once, and holds exactly the old and new ids |
| TaskStore.AddToSetFirstOccurrenceOrder | backend/controllers/task.js:209 | the appended ids follow the order of their first occurrence in the request |
| TaskStore.Pull | backend/controllers/task.js:239 | `$pull` removes every copy of the id and keeps every other id in order, each as many times as it occurred |
| TaskStore.Store.Find | backend/controllers/task.js:12-14 | the result lists exactly the matching tasks, each once, newest first |
| TaskStore.Store.GetAll | backend/controllers/task.js:7-24 | 404 for an unknown role key or an empty list; otherwise the caller's visible tasks (all for Root, own for Admin, own or assigned for User), newest first |
| TaskStore.Store.Inspect | backend/controllers/task.js:26-41 | the tasks assigned to the user, newest first, or 404 exactly when there are none |
| TaskStore.Store.GetById | backend/controllers/task.js:43-56 | the task if it exists, otherwise 404 |
| TaskStore.Store.Create | backend/controllers/task.js:58-107 | 401 without a caller; otherwise a new task by the caller is stored exactly when the schema accepts it, self-assigned when the role is the text "User"; an empty status or priority and a zero due date are dropped like absent ones, so the defaults apply; nothing else changes |
| TaskStore.Store.Update | backend/controllers/task.js:109-153 | 404 or 401 unless the caller created the task, is assigned to it, or is Admin or Root; a plain user who is not the creator changes only the status; a failure changes nothing |
| TaskStore.Store.Delete | backend/controllers/task.js:155-174 | only a Root caller deletes; a missing task is 404; the deleted task is the one returned |
| TaskStore.Store.GetAssignUser | backend/controllers/task.js:176-189 | the task's assignee list, or 400 for a missing task |
| TaskStore.Store.AssignUser | backend/controllers/task.js:191-222 | 404 for a missing task; 401 unless Root or the creating Admin; on success the assignees gain the given ids as a set |
| TaskStore.Store.DeleteAssign | backend/controllers/task.js:224-249 | only Root removes an assignee; a missing task is 400; on success the user id is pulled from the list |
| TaskStore.Store.GetNotAssignUser | backend/controllers/task.js:251-274 | the active users who are not assigned and whose roles the caller may see (no Root or Admin unless the caller is Root; never Root), or 404 when none |
| TaskStore.DeleteRightIsRoot | backend/controllers/task.js:162-164 | the owner test compares an array with an id and never holds, so the right to delete is exactly Root |
| TaskStore.SeenByRootIncludesOthers | backend/controllers/task.js:11-15 | Root sees every task an Admin sees, and creators see their own tasks |
| WorkingHoursReducer.Reduce | frontend/src/context/workingHours.js:5-18 | set and update replace the list; create prepends; delete removes every record with that id and keeps every other record in order with its multiplicity; other actions keep the state; create and delete on a null list throw |
| WorkingHoursReducer.DeleteIdempotent | frontend/src/context/workingHours.js:13-14 | deleting a record twice is the same as deleting it once |
| WorkingHoursReducer.DeleteUndoesCreate | frontend/src/context/workingHours.js:9-14 | deleting a record just created under a fresh id restores the state |
| WorkingHoursReducer.DurationsOf | frontend/src/pages/WorkingHours.js:45 | the durations of the records, position by position |
| WorkingHoursReducer.StatsAfterCreate | frontend/src/pages/WorkingHours.js:42-53 | after a record is created the total grows by its duration and the count by one |
| Session.AfterLogout | frontend/src/hooks/useLogout.js:14-26 | an accepted logout clears the login, the target user and the working hours and turns persistence off; a failed one changes nothing |
| Session.LogoutForgetsState | frontend/src/hooks/useLogout.js:17-21 | after a logout no earlier state remains, and a second logout changes nothing |
| Session.ClientSession.DispatchWorkingHours | frontend/src/context/workingHours.js:5-18 | the working-hours state becomes the reducer's result; a throwing action leaves it unchanged |
| Session.ClientSession.Logout | frontend/src/hooks/useLogout.js:14-26 | the session after logout is `AfterLogout` of the old one; the event log gains the logout request and, when the server accepts it, the four store updates in their order |
| Session.ClientSession.Refresh | frontend/src/hooks/useRefreshToken.js:10-40 | a decodable token logs in and is returned; empty or undecodable data gives no token; a 403 "Forbidden", 401 or 400 refusal logs out and rethrows; a network failure only rethrows |
| Session.ClientSession.AttachToken | frontend/src/hooks/useAxiosPrivate.js:14-21 | a request without an Authorization header gets "Bearer " and the token when there is one; any other request is untouched |
| Session.ClientSession.OnError | frontend/src/hooks/useAxiosPrivate.js:27-68 | only a 401 or 403 on a request not yet retried triggers a refresh; a token that decodes logs in and resends with the new header; an empty or undecodable body and a network failure reject with the session unchanged; a refused refresh logs out in `refresh` when that failure ends the session and in the interceptor for a status of 400 or more, and rejects with the refresh error; without a refresh the error is rejected, and a 403 after a retry logs out |
| Session.ClientSession.Execute | frontend/src/hooks/useAxiosPrivate.js:31-44 | a request is sent at most twice and refreshed at most once, counting a refresh the second error could start; it is sent twice exactly when an auth error on a fresh request is answered by a token that decodes; the second answer then settles it; a retried request is never refreshed again. The session state and event log afterwards are given on every path: a success changes nothing, an error without a refresh logs out only for a 403 on a retried request, a failed refresh rejects with the original error, a network failure or the refresh error and carries the refresh's logouts, and a resend carries the new login and then the second answer's logout |
| Pages.IsAdmin | frontend/src/pages/WorkingHours.js:29-39 | the guarded admin test is true only with a login that has a role list |
| Pages.UnguardedAdmin | frontend/src/pages/Sleep.js:24 | the unguarded test throws exactly when the login or its role list is missing |
| Pages.AdminTestsAgree | frontend/src/pages/Task.js:24 | where the unguarded test does not throw, it agrees with the guarded one |
| Calendar.DaysInMonth | frontend/src/pages/WorkingHours.js:64-66 | between 28 and 31 days; the Gregorian month length of `Date`'s full year |
| Calendar.MonthsMakeAYear | frontend/src/pages/WorkingHours.js:64-66 | the twelve month lengths add up to 365, or 366 in a leap year |
| Calendar.FebruaryLeapRule | frontend/src/FixedWorkingHours.js:61 | February has 29 days exactly in leap years (outside the two-digit years `Date` shifts) |
| Calendar.GenerateCalendarData | frontend/src/pages/WorkingHours.js:91-138 | rows of seven cells, just enough of them; each cell is blank before the first weekday and after the last day, and otherwise holds its day number |
| Calendar.ChangeMonth | frontend/src/pages/WorkingHours.js:258-272 | the month stays in 0..11 and the year moves by at most one; one step forward or back from a valid month is exact |
| JsMath.FloorDiv | frontend/src/pages/WorkingHours.js:58 | `Math.floor` of a quotient by a positive divisor |
| JsMath.Rem | frontend/src/pages/WorkingHours.js:59 | JavaScript's `%`: the remainder takes the dividend's sign |
| JsMath.RoundDiv | frontend/src/pages/WorkingHours.js:46 | `Math.round` of a quotient: the nearest integer, with halves rounded up |
| Durations.SplitDuration | frontend/src/pages/WorkingHours.js:57-61 | hours and minutes add back up for non-negative totals; negative totals give negative parts |
| Durations.NegativeDurationDoesNotAddUp | frontend/src/pages/Sleep.js:42-46 | for a negative number of minutes the floored hours and truncated minutes add back up only for whole hours; otherwise they add up to an hour less (-90 minutes shows as -2 h -30 m) |
| Durations.FormatDurationRoundTrip | frontend/src/components/sleeps/Index.js:20-24 | the "Xh Ym" text of a non-negative duration reads back as that duration |
| Durations.HealthStatusBands | frontend/src/components/sleeps/Index.js:27-33 | below 6 h, 6 to 7 h, 7 to 9 h and above 9 h give the four statuses |
| Durations.HealthStatusMonotone | frontend/src/components/sleeps/Index.js:27-33 | more sleep never gives a worse status |
| Durations.CalculateStats | frontend/src/pages/Sleep.js:27-38 | zeros for no records; otherwise the sum, the count and the rounded average |
| WorkingHoursPage.HoursEndpoint | frontend/src/FixedWorkingHours.js:152-197 | the admin endpoint with the target's id exactly when an admin with an email views another user; otherwise the plain list |
| WorkingHoursPage.SleepEndpoint | frontend/src/pages/Sleep.js:54-75 | rendering throws exactly when the login or roles are missing; otherwise the admin endpoint exactly when an admin views another user |
| WorkingHoursPage.EndpointsAgreeWithEmail | frontend/src/pages/Sleep.js:57-73 | with an email on the login, both screens ask for the same list |
| WorkingHoursPage.EndpointsDisagreeWithoutEmail | frontend/src/pages/WorkingHours.js:158-168 | an admin login without an email asks for different lists on the two screens |
| WorkingHoursPage.HoursPage.LoadWorkingHours | frontend/src/pages/WorkingHours.js:154-191 | nothing is sent without a login; otherwise the endpoint's request; the answer goes into the context, or the server's message is shown when it is non-empty and "Failed to load working hours data" otherwise |
| WorkingHoursPage.HoursPage.LoadSleep | frontend/src/pages/Sleep.js:54-75 | a crash exactly when the unguarded admin test throws; otherwise the endpoint's request, then the list or the error |
| WorkingHoursPage.HoursPage.AddDefaultWorkingHours | frontend/src/pages/WorkingHours.js:200-221 | sends 9:00 to 17:00 of the day, 480 minutes; success prepends the record; failure shows the server's non-empty message, else "Failed to add working hours" |
| WorkingHoursPage.HoursPage.AddCustomWorkingHours | frontend/src/pages/WorkingHours.js:224-255 | an end not after the start is refused with its message and nothing is sent; otherwise the interval is sent; success prepends the record; failure shows the server's non-empty message, else "Failed to add working hours" |
| WorkingHoursPage.HoursPage.AddFixedWorkingHours | frontend/src/FixedWorkingHours.js:204-220 | sends the date with 480 minutes; success prepends the record; failure shows the server's non-empty message, else "Failed to add working hours" |
| SleepEdit.CalculateDuration | frontend/src/components/sleeps/Edit.js:20-34 | the warning text appears exactly when the wake time is before the sleep time |
| SleepEdit.CalculateDurationRoundTrip | frontend/src/components/sleeps/Edit.js:27-33 | the "h hours and m minutes" text reads back as the number of minutes between the two times |
| SleepEdit.EditDialog.HandleShow | frontend/src/components/sleeps/Edit.js:82-93 | opens the dialog, clears the error and previews the stored record's duration |
| SleepEdit.EditDialog.UpdatePreview | frontend/src/components/sleeps/Edit.js:38-42 | with both times present the preview is their duration; otherwise it is kept |
| SleepEdit.EditDialog.HandleUpdate | frontend/src/components/sleeps/Edit.js:44-75 | missing times or a wake before sleep are refused with their messages and nothing is sent; otherwise PATCH then a refetch; the list replaces the context and the dialog closes; a failure shows the server's non-empty message, else "Failed to update sleep record" |
| TaskPage.FilteredTasks | frontend/src/pages/Task.js:42-59 | no tasks before loading; otherwise exactly the tasks matching the search, status and priority, in order and with their multiplicities |
| TaskPage.NoFilterShowsAll | frontend/src/pages/Task.js:43-58 | an empty search with both filters on "all" shows every task |
| TaskPage.SearchIgnoresCase | frontend/src/pages/Task.js:47-49 | searching for a term and for its lower-case form shows the same tasks |
| TaskPage.StatusFilterExact | frontend/src/pages/Task.js:52-53 | a status filter keeps a task exactly when it has that status |
| TaskPage.TaskEndpoint | frontend/src/pages/Task.js:66-89 | rendering throws exactly when the login or roles are missing; otherwise it inspects the target exactly when an admin has a target user |
| TaskPage.TaskEndpointIgnoresEmail | frontend/src/pages/Task.js:68-70 | an admin whose target is their own account inspects it here, where the sleep screen asks for the plain list |
| TaskPage.AfterLoad | frontend/src/pages/Task.js:79-84 | the response data and no error, or an empty list and the server's message |
| Home.CountStatus | frontend/src/pages/Home.js:52-54 | a count never exceeds the number of tasks |
| Home.ComputeStats | frontend/src/pages/Home.js:46-58 | each of the three counts is at most the number of tasks |
| Home.StatsTotal | frontend/src/pages/Home.js:52-54 | the counts add up to at most the number of tasks, and to exactly that number when every status is one of the three |
| Home.NextStats | frontend/src/pages/Home.js:49 | the counts are recomputed only when the response is an array; otherwise they are kept |
| Home.FormatDate | frontend/src/pages/Home.js:24-35 | the date line starts with the weekday's name |
| Home.FormatDateRoundTrip | frontend/src/pages/Home.js:24-35 | the date line names the weekday, month, day and year it was made from |
| Notes.FilteredNote | frontend/src/pages/Note.js:83-89 | exactly the notes whose title contains the query, ignoring case, and that share a tag with the selection, in order and with their multiplicities; no list stays no list |
| Notes.NoQueryShowsAll | frontend/src/pages/Note.js:86-87 | with no query and no selected tag every note is shown |
| Notes.TagSelection | frontend/src/pages/Note.js:87 | with a selection, a note passes exactly when it has a selected tag |
| Notes.TagsOfMembership | frontend/src/pages/Note.js:62 | a tag is in the flattened list exactly when some note has it |
| Notes.AllTags | frontend/src/pages/Note.js:62-63 | every tag of every note, each once |
| Notes.AllTagsInFirstOccurrenceOrder | frontend/src/pages/Note.js:63 | the tag choices keep the order in which the tags first appear |
| Notes.NoteEndpoint | frontend/src/pages/Note.js:45-71 | rendering throws exactly when the login or roles are missing; otherwise the admin-all request for the target exactly when an admin has one |
| Notes.NoteAndTaskEndpointsAgree | frontend/src/pages/Note.js:47-49 | the note and task screens look at another user's data in the same cases |
| Notes.AfterLoad | frontend/src/pages/Note.js:58-68 | on success the notes, and as tag choices `AllTags` of them: every tag once, in first-occurrence order; on failure an empty list with "not found"; loading ends either way |
| Notes.FailedLoadShowsNoCard | frontend/src/components/notes/Index.js:56-63 | after a failed load no card is drawn, whatever the filters |
| Notes.TextPreview | frontend/src/components/notes/Index.js:8 | at most 100 characters of the text, followed by "..." exactly when it was longer |
| Notes.ShownText | frontend/src/components/notes/Index.js:38 | "No content" is shown exactly for an empty text (or that very text); otherwise the preview |
| Notes.TagColor | frontend/src/components/notes/Index.js:11-15 | one of the six badge colours |
| Notes.TagColorByLength | frontend/src/components/notes/Index.js:13 | tags whose lengths agree modulo six get the same colour |
| Notes.TagBadges | frontend/src/components/notes/Index.js:23-33 | no badge row without tags; otherwise the first three tags with their colours and "+k" exactly when there are more |
| Notes.BadgesCountAllTags | frontend/src/components/notes/Index.js:23-33 | shown badges plus the "+k" count account for every tag |
| Notes.Cards | frontend/src/components/notes/Index.js:56-63 | nothing for a missing or empty list; otherwise one card per note, in order |
| NoteForm.BuildPayload | frontend/src/components/notes/Add.js:48-54 | the sent title and text are the trimmed inputs, the tags are the selection, and the user id is present exactly when an admin writes for another user |
| NoteForm.SentTitleNotEmpty | frontend/src/components/notes/Add.js:40-43 | a title that passes the check is never sent empty |
| NoteForm.AddNoteForm.HandleSubmit | frontend/src/components/notes/Add.js:32-68 | no login or a blank title gives its message and sends nothing; a missing role list fails the save; otherwise the note is sent and success navigates to /note, failure shows the server's non-empty message, else "Failed to create note" |
| Goals.InitialGoals | frontend/src/components/GoalsWidget.js:12-24 | the saved list, or the three example goals numbered 1 to 3 |
| Goals.CompletedCount | frontend/src/components/GoalsWidget.js:72 | never more than the number of goals |
| Goals.DefaultGoalsOneCompleted | frontend/src/components/GoalsWidget.js:17-22 | exactly one example goal is done |
| Goals.AddGoal | frontend/src/components/GoalsWidget.js:35-47 | a blank entry changes nothing; otherwise the untrimmed text is appended as an open goal named by the clock, and the entry is cleared |
| Goals.ToggleGoal | frontend/src/components/GoalsWidget.js:49-53 | same goals in the same order; `completed` flips exactly on the goals with that id |
| Goals.ToggleTwice | frontend/src/components/GoalsWidget.js:49-53 | toggling twice restores the list |
| Goals.DeleteGoal | frontend/src/components/GoalsWidget.js:55-57 | exactly the goals with other ids remain, in order and each as many times as before |
| Goals.DeleteUndoesAdd | frontend/src/components/GoalsWidget.js:35-57 | deleting a goal just added under a fresh id gives back the earlier list |
| Text.Trim | frontend/src/components/notes/Add.js:40 | `trim()` removes exactly the leading and trailing white space |
| Text.TrimEmptyIffBlank | frontend/src/components/GoalsWidget.js:37 | a trimmed text is empty exactly when the text is all white space |
| Text.ToLower | frontend/src/pages/Task.js:47 | lower-cases the ASCII letters one by one and leaves every other character as it is |
| Text.ContainsIff | frontend/src/pages/Task.js:48-49 | `includes` holds exactly when the needle occurs at some position |
| Text.IntToStringRoundTrip | frontend/src/pages/Home.js:24-35 | a year's decimal text reads back as that year |

## Left out

- Sockets, Redis, the database and the HTTP transport are left out. Every server answer and every database result is a parameter.
- Cookies, localStorage and the persistence flag's storage are left out; only the flag is modelled.
- The JWT check and jwt-decode are parameters (`verify`, `decode`). No cryptography is modelled.
- `validateObjectId`, `validateAuthInputField`, `requireRoles`, `errorHandler` and the user model are not part of this model. Ids are natural numbers, and `requireRoles` is taken to admit a caller who holds one of the listed roles. `validateAuthInputField` is taken to accept exactly a present, non-empty title and description; the acceptance condition of `TaskStore.Store.Create` rests on that.
- Mongoose's update validators are left out: an update patch carries only values of the enumerations. `populate` and `select` projections are left out: handlers return ids and documents, not populated names.
- Dates are left out as `Date` objects. Times are whole minutes, and the weekday of the first of the month is a parameter. Locale formatting, time zones and `toISOString` are not modelled.
- `AbortController`, `isMounted` and the loading spinners are left out, as are the effects' dependency lists.
- Session.ClientSession.Refresh: `logout()` is called without `await` (frontend/src/hooks/useRefreshToken.js:34). In the browser the refresh error is rethrown while the logout request is still pending, and the stores are cleared later. The model applies the whole logout at the call, before `refresh` returns.
- Session.ClientSession.OnError: the interceptor's `logout()` is not awaited either (frontend/src/hooks/useAxiosPrivate.js:54, 64). After a refused refresh both logout requests go out before either clears the stores, and the rejection reaches the caller first. The model applies the two logouts one after the other, each in full. It also gives both the same acceptance flag, so "the first logout request fails and the second succeeds" is not expressed. The same holds for Session.ClientSession.Execute, which is built on it.
- Session.ClientSession.Execute: the interceptor resends by calling the axios instance again (recursively); the model sends the request and its one retry in straight-line code.
- Notes.ShownText: a note with no `text` field at all renders the word "undefined". The model has no missing text, so that case is not captured.
- WorkingHoursPage.HoursPage.LoadSleep: `err.response?.data.error` throws when the response has no data. The model's failed answer always carries an optional message, so that extra throw is not captured.
- TaskPage.AfterLoad: the same `err.response?.data.error` (frontend/src/pages/Task.js:83) throws on a response without data; not captured.
- NoteForm.AddNoteForm.HandleSubmit: the same `error.response?.data.error` (frontend/src/components/notes/Add.js:64) throws on a response without data; not captured.
- SleepEdit.EditDialog.HandleUpdate: the same `error.response?.data.error` (frontend/src/components/sleeps/Edit.js:71) throws on a response without data; not captured.
- Text.ToLower: folds only the ASCII letters. JavaScript's `toLowerCase` folds every Unicode letter and may change the length ("İ" becomes two code units), so the model does not capture non-ASCII search.
- TaskPage.FilteredTasks and Notes.FilteredNote: their case-insensitive matching inherits the ASCII-only folding of `Text.ToLower`.
- Notes.TextPreview: strings are sequences of characters, so the 100-character cut counts characters. JavaScript's `substring` counts UTF-16 code units and can split a surrogate pair; that is not captured.
- Notes.TagColor: the tag's length is counted in characters, not in UTF-16 code units as `tag.length` does, so a tag outside the Basic Multilingual Plane may get another colour than in the browser.
- The CSV export, `getWorkHoursForDate`, the debug routes, the quote and weather widgets, the token-login page and the navigation bar are left out: they are outside the modelled core.
- The user and auth contexts' own reducers are left out. Only the fields this core reads (the login record, roles, email and id) are modelled.
- The task list context (`useTasksContext`, frontend/src/pages/Task.js:21) is not part of this model. The screen's two `SET_TASKS` dispatches (Task.js:79, 82) are taken to replace the list, which is what `TaskPage.AfterLoad` returns; the context's other actions are left out.
