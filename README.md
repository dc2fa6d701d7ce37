# Task manager client: task-list state, view projection and error handling

A Dafny model of the core of a small React client for a personal task
service (`src/App.jsx`). The client keeps a list of tasks mirrored from a
remote API, shows a subset of it chosen by a status filter and a search
text, creates, edits and deletes tasks and changes their status through the API, and
turns rejected requests into an alert dialog. The model covers:

- the `TaskManager` component's state (the task list, the filter and search
  inputs, the three new-task inputs and the edit dialog's working copy) as a
  class whose methods are the component's handlers (`task_manager.dfy`);
- `filteredTasks`, the view projection, as a pure function with lemmas that
  characterise it completely (`projection.dfy`);
- `handleErrors`, the error classifier, as a total function from a rejected
  request to a disposition (`errors.dfy`);
- `isLocal`, which decides the session cookie's `secure` flag (`host.dfy`);
- the host string operations they rely on: ASCII `toLowerCase`,
  `startsWith`, `includes` and `trim` (`text.dfy`);
- the task record, the working copy and the API's requests and outcomes
  (`tasks.dfy`, `gateway.dfy`, `wrappers.dfy`), and a few sessions proved
  from the handlers' contracts alone, plus one search over a fixed list
  proved from the projection's definition (`scenarios.dfy`).

The network is not modelled. A handler that awaits a request takes the
request's outcome (`Ok(body)` or `Err(error)`) as an argument, and returns
the requests it issued, each with the bearer token the component read from
the cookie. A rejected request is either an HTTP answer with a status and a
payload, or no answer at all.

Some of the code's behaviour is easy to misread; the model follows the code:

- A request that gets no response makes `handleErrors` throw, because it
  reads `error.response.status` of an undefined response; it does not reach
  the catch-all "unexpected error" case. A 422 whose payload has no `errors`
  array throws likewise (`Errors.Classify` returns `Threw`).
- `addTask` has no `try`/`catch`: a failed create is not routed to the
  classifier, and it leaves the list and the inputs as they were.
- The title is posted untrimmed; only the blank test uses `trim()`.
- `handleUpdate` does not clear the working copy after saving.
- The working copy starts as the empty string, which spreads to an object
  with no fields, so it is a record of optional fields (`Tasks.Draft`)
  rather than an optional task. Editing a field before any task was opened
  gives a copy with only that field, and saving it sends it under an
  undefined id.
- A 401 shows its message and returns `false` and does nothing to the
  credential; only a 419 reloads the page, after the dialog is acknowledged.
  The catch-all case does not reload, because that line is commented out.

## Model

| member | source | states |
|---|---|---|
| Host.IsLocal | src/App.jsx:15-17 | a host counts as local exactly when it is `localhost` or begins with `192.168.` |
| Host.CookieSecure | src/App.jsx:80 | the cookie is marked secure exactly when the host is not local |
| Host.LocalExamples | src/App.jsx:15-17 | `localhost` and a 192.168 address are local |
| Host.NonLocalExamples | src/App.jsx:15-17 | the loopback address, other private ranges, a truncated prefix and a host containing the prefix later are not local, so they get a secure cookie |
| Text.Lower | src/App.jsx:203-204 | lower-casing keeps the length and maps every character through ASCII lower-casing |
| Text.LowerIdempotent | src/App.jsx:203-204 | lower-casing an already lower-cased text changes nothing |
| Text.StartsWith | src/App.jsx:17 | the character-by-character test holds exactly when the prefix is a prefix of the text |
| Text.Includes | src/App.jsx:203-204 | the left-to-right scan holds exactly when the needle occurs at some position of the text |
| Text.TrimStart | src/App.jsx:184 | the result is a suffix of the input, everything removed is white space, and it does not start with white space |
| Text.TrimEnd | src/App.jsx:184 | the result is a prefix of the input, everything removed is white space, and it does not end with white space |
| Text.TrimEmptyIffBlank | src/App.jsx:184 | trimming both ends leaves nothing exactly when every character is white space |
| Text.Trim | src/App.jsx:184 | `trim()` leaves no white space at either end and yields the empty (falsy) string exactly when every character is white space |
| Tasks.StatusOnly | src/App.jsx:213-215 | a status change sends a body with the new `estado` and no other field |
| Tasks.FromTask | src/App.jsx:242-244 | the working copy of a task has every field and describes exactly that task |
| Tasks.ToTask | src/App.jsx:242-244 | an abstraction of the model, not code of the source: a working copy reads back as a task exactly when none of its fields is missing |
| Tasks.FromToTask | src/App.jsx:242-244 | a complete working copy is the copy of the task it describes |
| Tasks.EditsCommuteWithCopy | src/App.jsx:389-421 | editing one field of a task's copy gives the copy of that task with only that field replaced |
| Errors.Messages | src/App.jsx:119-120 | the validation messages are the `msg` of each error, one per error, in order |
| Errors.MessagesAppend | src/App.jsx:119-120 | the messages of a concatenated report are the concatenated messages |
| Errors.Classify | src/App.jsx:115-157 | the handler throws exactly for a missing response or a 422 without an error list; 422 shows the messages, 403 the payload, 401, 419 and every other status their fixed texts; only 401 returns `false`; only 419 reloads |
| Errors.ValidationScenario | src/App.jsx:118-126 | a 422 naming one missing field shows exactly that one message and returns `{}` without reloading |
| Projection.MatchesSearch | src/App.jsx:202-204 | the search test holds exactly when the lower-cased search text occurs in the lower-cased title or description; the empty text matches every task |
| Projection.Keep | src/App.jsx:200-207 | with a non-empty search the search test decides alone; otherwise TODAS keeps every task and a status keeps exactly the tasks in it |
| Projection.Filtered | src/App.jsx:200-208 | the projection is never longer than the list |
| Projection.FilteredAppend | src/App.jsx:200 | the projection of a concatenation is the concatenation of the projections |
| Projection.FilteredSnoc | src/App.jsx:193 | appending a task to the list adds it at the end of the shown tasks exactly when it passes the test, and changes nothing else shown |
| Projection.FilteredSingleton | src/App.jsx:200-208 | a one-task list is shown whole or not at all, according to the per-task test |
| Projection.KeptIndices | src/App.jsx:200-208 | the positions of the kept tasks, strictly increasing, containing a position exactly when its task passes the test |
| Projection.FilteredIsKeptTasks | src/App.jsx:200-208 | the projection is exactly the tasks at the kept positions, in list order: an order-preserving subsequence holding every kept task |
| Projection.FilteredMembers | src/App.jsx:200-208 | a task is shown exactly when it is listed and passes the test |
| Projection.FilteredCount | src/App.jsx:200-208 | a kept task is shown as often as it is listed, any other never |
| Projection.SearchSelectsMatches | src/App.jsx:201-206 | with a non-empty search, the shown tasks are exactly those whose title or description contains the search text, ignoring case |
| Projection.SearchIgnoresFilter | src/App.jsx:201-206 | with a non-empty search, the status filter makes no difference |
| Projection.SearchCaseInsensitive | src/App.jsx:203-204 | two search texts equal up to ASCII case show the same tasks |
| Projection.TodasShowsAll | src/App.jsx:207 | without a search, TODAS shows the whole list unchanged |
| Projection.OnlyShowsStatus | src/App.jsx:207 | without a search, a status filter shows exactly the tasks in that status |
| Projection.FilteredIdempotent | src/App.jsx:200-208 | filtering the shown tasks again shows the same tasks |
| Manager.Refreshed | src/App.jsx:174-177 | a successful list answer becomes the list exactly; a failed one leaves the old list |
| Manager.RefreshIdempotent | src/App.jsx:169-178 | refreshing twice with the same answer gives the state of refreshing once |
| Manager.RefreshReplaces | src/App.jsx:174 | a successful refresh replaces the list by the server's, whatever was there before |
| Manager.TaskManager.constructor | src/App.jsx:159-167 | the component starts with no tasks, filter TODAS, empty search and inputs, and an empty working copy |
| Manager.TaskManager.Visible | src/App.jsx:200 | the shown tasks over the component state are never more than the list, are exactly the listed tasks passing the test, and are the whole list under TODAS without a search |
| Manager.TaskManager.SetSearch | src/App.jsx:260 | the search box changes only the search text |
| Manager.TaskManager.SetFilter | src/App.jsx:266 | the drop-down changes only the status filter |
| Manager.TaskManager.SetNewTitulo | src/App.jsx:341 | the title input changes only the new title |
| Manager.TaskManager.SetNewDescripcion | src/App.jsx:348 | the description input changes only the new description |
| Manager.TaskManager.SetNewFecha | src/App.jsx:355 | the date input changes only the new due date |
| Manager.TaskManager.FetchTasks | src/App.jsx:169-178 | one list request; on success the list becomes the server's list exactly, on failure nothing changes |
| Manager.TaskManager.AddTask | src/App.jsx:183-198 | a blank title issues no request and changes nothing; otherwise one create request with the inputs as typed; on success the created task is appended (no re-fetch), the inputs are cleared, and the shown list gains the task exactly when it passes the current filter; on failure nothing changes |
| Manager.TaskManager.UpdateTask | src/App.jsx:222-231 | one update request; on success a refresh follows and nothing but the list changes; on failure the state is unchanged and the disposition is the classifier's |
| Manager.TaskManager.ChangeStatus | src/App.jsx:210-220 | an update carrying only the new status, with the same success and failure behaviour |
| Manager.TaskManager.HandleDeleteTask | src/App.jsx:232-241 | one delete request; on success a refresh follows; on failure the state is unchanged and the disposition is the classifier's |
| Manager.TaskManager.HandleModalUpdate | src/App.jsx:242-244 | the working copy becomes a complete copy of the chosen task, whatever it held, and nothing else changes |
| Manager.TaskManager.EditTitulo | src/App.jsx:389-394 | only the working copy's title changes |
| Manager.TaskManager.EditDescripcion | src/App.jsx:403-408 | only the working copy's description changes |
| Manager.TaskManager.EditFechaLimite | src/App.jsx:416-421 | only the working copy's due date changes |
| Manager.TaskManager.HandleUpdate | src/App.jsx:246-249 | the whole working copy is sent under its own id, with the update's success and failure behaviour; the copy is kept |
| Scenarios.StatusChangeScenario | src/App.jsx:210-231 | completing the pending task of a two-task list, refreshing, and filtering on PROGRESO shows only the in-progress task |
| Scenarios.AddScenario | src/App.jsx:183-198 | a title of spaces issues no request; a real title is posted and appended, and the title input is cleared |
| Scenarios.FailedAddScenario | src/App.jsx:183-198 | a create rejected with 422 sends one create request and leaves the list and all three inputs unchanged, with no dialog |
| Scenarios.FailedUpdateScenario | src/App.jsx:222-231 | a status change rejected with 422 leaves the list as it was and shows the two messages in order |
| Scenarios.EditScenario | src/App.jsx:242-249 | opening a task, retyping its title and saving sends that task with the new title under its own id, then refreshes |
| Scenarios.SearchScenario | src/App.jsx:200-206 | a lemma about the projection itself, calling no handler: a capitalised search finds the pending task whose title contains the word despite a COMPLETADA filter, and drops the other |

## Left out

- Registration and login (`Register`, `Login`, src/App.jsx:18-113): network requests and form widgets; only the cookie's `secure` decision is modelled.
- Cookie storage (`js-cookie`, its one-day expiry and `sameSite`): a browser library; the token is a constructor argument of the task manager.
- The HTTP client, the endpoint URL and the server: requests are values, and their outcomes are arguments. What the server does with a request (whether the next list reflects a change) is not modelled, so properties stated over a create or status change followed by a refresh depend on the list the server returns.
- Routing and rendering (JSX, Bootstrap dialogs, CSS, src/App.jsx:251-458): presentation only.
- The alert dialog, `JSON.stringify` of the message list, `console` logging, and `location.reload()`: side effects of the host; the dialog's content and the reload request are fields of the disposition.
- The initial fetch run by `useEffect` and the order in which concurrent requests complete: each handler applies its outcomes at once, and the refresh that follows a write (not awaited in the source) is applied straight after it.
- Manager.TaskManager.AddTask: a failed create rejects the handler's promise; the model records that nothing changed but not the unhandled rejection itself.
- Text.Lower: case-folds ASCII letters only, not the full Unicode `toLowerCase`.
- The unused `date` state (src/App.jsx:162) and date formatting (`toISOString`): host date functions; the due date is an opaque string.
- Fields of a server task beyond `id`, `titulo`, `descripcion`, `fechaLimite` and `estado`, `estado` strings outside the three values, a task with no due date (src/App.jsx:280 allows one; the model always has a `fechaLimite` string, so a saved working copy always carries that field), and a null `titulo` or `descripcion`, which would make `toLowerCase` throw at src/App.jsx:203-204: the wire format is not modelled.
