# Task mutation engine of a shared task board

This project models, in Dafny, the part of the board's backend that changes
tasks: the handlers `createTask`, `updateTask`, `deleteTask` and
`smartAssignTask`, the title check `validateTaskTitle` and the audit helper
`logAction`, together with the two schemas they write (the task record and
the action-log record).

A board is a map from task id to task, an ordered user directory, an
append-only action log and the sequence of broadcast events. Database reads
and writes become reads and updates of that map; `io.emit` becomes an
append to the event sequence.

- `wrappers.dfy`: `Option`.
- `task_model.dfy` (`TaskModel`): the status and priority enumerations with
  their stored names, the `Task` record, and `NewTask`, which fills in the
  schema defaults (no assignee, Todo, Medium, version 0).
- `action_log_model.dfy` (`ActionLogModel`): the five action types, the
  shapes of the details object, the `ActionLog` record, and `NewLog`.
- `task_controller.dfy` (`TaskController`):
  - A value-level specification. `BoardState` holds the board. `Create`,
    `Update`, `Delete` and `SmartAssign` each give the next board and the
    handler's `Outcome` (`Ok`, `Removed`, `NotFound`, `Conflict(latest)`,
    `Invalid(message)`, `NoUsers`). `Invariant` states the title rules.
    Lemmas state what the handlers guarantee.
  - The class `Board`. Its methods are the handlers written step by step,
    as the controller runs them. Each method is proved to leave exactly the
    board, and return exactly the outcome, that its function specifies.
    Each method also keeps `Valid()`.
  - Two read-only methods hold the controller's step-by-step parts.
    `DiffFields` is the field-by-field diff of `updateTask`.
    `ScanActiveCounts` is the counting loop of `smartAssignTask`.

Behaviour kept from the code:

- A title is compared ignoring case, both against the column names and
  against the other tasks' titles.
- The update diff counts a field only when it was supplied and differs. A
  title counts only when it is non-empty and differs ignoring case.
- An update that changes nothing is a no-op: no version bump, no log entry
  and no event.
- A successful update or smart assignment raises the version by exactly 1.
- Delete has no version check.
- Smart assignment keeps the first user whose active count is strictly
  smaller than every count before it. It bumps the version even when the
  assignee does not change. Afterwards that user holds at most one more
  active task than any user held before.
- The log append is best-effort. The action-log schema requires a non-empty
  `username`, so an actor with an empty name gets no log entry and no
  `newActionLogEntry` event. The handler still succeeds.

An update's action type starts as TASK_UPDATED. The controller sets it to
TASK_ASSIGNED when the assignee changes (line 193). It then sets it to
TASK_STATUS_CHANGED when the status changes (line 199). The status check
runs second, so an update that changes both the assignee and the status is
logged as a status change. `UpdateAction` and the lemma
`StatusOverridesAssignment` state this order.

## Model

| member | source | states |
|---|---|---|
| TaskModel.ParseStatus | backend/src/models/task.model.js:12-16 | a status string is accepted exactly when it is the name of one of Todo, In Progress, Done, and it parses back to that status |
| TaskModel.ParsePriority | backend/src/models/task.model.js:17-21 | a priority string is accepted exactly when it is the name of one of Low, Medium, High, and it parses back to that priority |
| TaskModel.NewTask | backend/src/models/task.model.js:4-22 | a new task keeps the supplied id, title, description and assignee; status defaults to Todo, priority to Medium, an absent assignee stays null, and the version is 0 |
| ActionLogModel.ParseActionType | backend/src/models/actionLog.model.js:14-24 | an action type string is accepted exactly when it is one of the five names, and it parses back to that action type |
| ActionLogModel.KeyNamesDistinct | backend/src/models/actionLog.model.js:30-33 | distinct details keys name distinct properties, so a map over keys stands for the details object without collisions |
| ActionLogModel.NewLog | backend/src/models/actionLog.model.js:4-33 | a log record carries the actor's user id and username, the action type and the optional task id, and its details default to the empty object |
| TaskController.Lower | backend/src/controller/task.controller.js:9 | lower-casing keeps the length and lower-cases each ASCII letter in place |
| TaskController.ValidateTaskTitle | backend/src/controller/task.controller.js:6-26 | a title is accepted exactly when it matches no column name and no other task's title, ignoring case (the excluded id does not count); a column name is reported with the column-name message, otherwise a clash with the uniqueness message |
| TaskController.ReservedTitleRejected | backend/src/controller/task.controller.js:7-16 | every case variant of "Todo", "In Progress" and "Done" is rejected, with the column-name message |
| TaskController.DuplicateTitleRejected | backend/src/controller/task.controller.js:17-24 | a title equal, ignoring case, to the title of any task other than the excluded one is rejected |
| TaskController.LogEntries | backend/src/controller/task.controller.js:29-50 | logAction adds exactly one record carrying the actor's id and username, the action type, the task id and the details, unless the schema rejects the record (empty username), in which case it adds nothing |
| TaskController.FindUser | backend/src/controller/task.controller.js:181-186 | a user lookup by id returns a directory member with that id, or nothing only when no member has that id |
| TaskController.UsernameOf | backend/src/controller/task.controller.js:181-191 | the name logged for an assignee is never empty: "Unassigned" for null, and otherwise exactly the username of the user found under that id when that name is non-empty; any other name than "Unassigned" comes from that user |
| TaskController.CreatedDetails | backend/src/controller/task.controller.js:118-122 | a TASK_CREATED entry's details hold exactly the title, the stored status name and the assignee's logged name (UsernameOf: the assignee's non-empty username, otherwise "Unassigned") |
| TaskController.Create | backend/src/controller/task.controller.js:89-130 | creation fails with Invalid and leaves the board unchanged exactly when the title is a column name, clashes with an existing title ignoring case, or is empty; the message is the column-name message, then the uniqueness message, then the required-title message, in that order of precedence; otherwise it stores the schema-default task under a fresh id and appends the TASK_CREATED entry LogEntries gives, its broadcast and the taskCreated event |
| TaskController.ChangedFields | backend/src/controller/task.controller.js:160-205 | each updatable field is in the changed set exactly when it was supplied with a differing value (a title non-empty and differing ignoring case), so the set is empty exactly when no field differs |
| TaskController.Patched | backend/src/controller/task.controller.js:160-211 | an updated task differs from the stored one only in fields supplied with a differing value, each taking the supplied value, and its version is one higher |
| TaskController.UpdateDetails | backend/src/controller/task.controller.js:156-205 | the update's log details hold an {oldValue, newValue} pair for exactly the changed fields; each pair holds the stored value and the patched value (the title, the description or absent, the assignee's logged name, the status and priority names) |
| TaskController.Update | backend/src/controller/task.controller.js:135-234 | missing id gives NotFound, a stale version gives Conflict carrying the stored task, and a changed title that validation rejects gives Invalid with the validation message, all three leaving the board unchanged (and Invalid arises only that way); with nothing changed the stored task is returned and nothing happens; otherwise the outcome is Ok with the patched task at version + 1, stored under its id, with the LogEntries of the chosen action type and per-field details appended, then the taskUpdated event |
| TaskController.UpdateIdempotent | backend/src/controller/task.controller.js:160-209 | resending an accepted update with the version it produced changes nothing and returns the same task |
| TaskController.StatusOverridesAssignment | backend/src/controller/task.controller.js:193-199 | when both the assignee and the status change, the action type is TASK_STATUS_CHANGED and both fields are in the details, whatever the user directory |
| TaskController.UpdateAction | backend/src/controller/task.controller.js:157-199 | the action type is TASK_STATUS_CHANGED exactly when the status changes, TASK_ASSIGNED exactly when the assignee changes and the status does not, and TASK_UPDATED exactly when neither changes |
| TaskController.Delete | backend/src/controller/task.controller.js:239-266 | a missing id gives NotFound with the board unchanged; otherwise, with no version check, exactly that task is removed and one TASK_DELETED entry with its title and status is appended, then the taskDeleted event |
| TaskController.ActiveTasks | backend/src/controller/task.controller.js:302-305 | the tasks counted for a user are stored tasks |
| TaskController.ActiveTasksQuery | backend/src/controller/task.controller.js:302-305 | a stored task is counted for a user exactly when it is assigned to that user and its stored status is "Todo" or "In Progress" |
| TaskController.ActiveCount | backend/src/controller/task.controller.js:302-305 | a user's active count never exceeds the number of stored tasks |
| TaskController.Snapshot | backend/src/controller/task.controller.js:299-309 | the logged snapshot lists every user of the directory, in order, with that user's count of Todo and In Progress tasks |
| TaskController.FirstLeastLoaded | backend/src/controller/task.controller.js:297-315 | the chosen index has the smallest count and every earlier user has a strictly larger count |
| TaskController.TieGoesToEarlierUser | backend/src/controller/task.controller.js:311 | with counts 1, 0, 0 the second user is picked, not the third |
| TaskController.SmartAssignDetails | backend/src/controller/task.controller.js:343-349 | a TASK_ASSIGNED entry's details hold exactly the task title, the old assignee's logged name (UsernameOf: the old assignee's non-empty username, otherwise "Unassigned"), the new assignee's username, and one (username, active count) row per directory user in directory order |
| TaskController.SmartAssign | backend/src/controller/task.controller.js:271-358 | missing id gives NotFound, a stale version Conflict with the stored task, an empty directory NoUsers, all leaving the board unchanged; a found task at the current version with a non-empty directory always gives Ok: the task is assigned to the first least-loaded user with version + 1, and the TASK_ASSIGNED LogEntries (old and new assignee names, task title, count snapshot) and the taskUpdated event are appended |
| TaskController.SmartAssignTarget | backend/src/controller/task.controller.js:311-329 | any user with the smallest count and no earlier user at that count is the one assigned, and the version rises by 1 even if that user already held the task |
| TaskController.SmartAssignBalancesLoad | backend/src/controller/task.controller.js:297-330 | after a smart assignment, the new assignee holds at most one more Todo or In Progress task than any user in the directory held before it |
| TaskController.FirstWriterWins | backend/src/controller/task.controller.js:148-153 | after an accepted update or smart assignment against version v, every further update or smart assignment carrying v gets Conflict with the task as now stored, at version v + 1 |
| TaskController.CreatePreservesInvariant | backend/src/controller/task.controller.js:93-106 | creation keeps every title non-empty, distinct from the column names and unique ignoring case, and every id below the next fresh id |
| TaskController.UpdatePreservesInvariant | backend/src/controller/task.controller.js:159-167 | an update keeps the title rules, since a changed title must pass validation against every other task |
| TaskController.DeletePreservesInvariant | backend/src/controller/task.controller.js:242-247 | deletion keeps the title rules |
| TaskController.SmartAssignPreservesInvariant | backend/src/controller/task.controller.js:328-330 | smart assignment keeps the title rules |
| TaskController.DiffFields | backend/src/controller/task.controller.js:155-205 | the field-by-field pass builds exactly the per-field details, the action type (status overriding assignment overriding the default) and the patched fields, and leaves the task as it was when no field differs |
| TaskController.ScanActiveCounts | backend/src/controller/task.controller.js:297-315 | the counting loop yields no user exactly when the directory is empty, otherwise the first least-loaded user, and the snapshot of every user's count in order |
| TaskController.Board.LogAction | backend/src/controller/task.controller.js:29-50 | appends the entries LogEntries gives to the log and one newActionLogEntry event per entry, and changes nothing else |
| TaskController.Board.CreateTask | backend/src/controller/task.controller.js:89-130 | leaves exactly the board and returns exactly the outcome that Create specifies, and keeps the board invariant |
| TaskController.Board.UpdateTask | backend/src/controller/task.controller.js:135-234 | leaves exactly the board and returns exactly the outcome that Update specifies, and keeps the board invariant |
| TaskController.Board.DeleteTask | backend/src/controller/task.controller.js:239-266 | leaves exactly the board and returns exactly the outcome that Delete specifies, and keeps the board invariant |
| TaskController.Board.SmartAssignTask | backend/src/controller/task.controller.js:271-358 | leaves exactly the board and returns exactly the outcome that SmartAssign specifies, and keeps the board invariant |

## Left out

- `getTasks` and `getTaskById`: plain reads with `populate`. There is nothing to state about them beyond a map lookup.
- HTTP status codes, JSON bodies and `populate`: outcomes are the `Outcome` datatype. The task sent in responses and events is the stored record, not the populated one.
- The no-op branch of `updateTask` sends `res.json` a promise. The model returns the unchanged task.
- Timestamps (`createdAt`, `updatedAt`) are not modelled.
- Concurrency: handlers run one at a time. The code's `findById`, check, `save` sequence has no atomic compare-and-swap, so the version check is only as strong as that.
- Broadcast delivery: events are only recorded, in emission order.
- Storage failures and the generic 500 responses are not modelled. Neither is the unreachable 500 branch of `smartAssignTask` when no user is chosen.
- The only log-append failure modelled is the schema rejecting an empty username. Other storage errors swallowed by `logAction` are not modelled.
- Request values outside the status and priority enumerations are not modelled. `Status` and `Priority` are datatypes, so the schema's rejection of such strings at `save` time is not reached.
- An empty `title` at creation passes the title check in the code, and `save` then fails the schema's `required` rule. The code answers 500 with that message. The model reports `Invalid` with the same message.
- A missing `title` in a create request is not modelled. The code calls `title.toLowerCase()` outside the `try`, so the request fails unhandled.
- `description: null` in an update request is not modelled. The patch supplies a description as a string or leaves it out.
- Assignee ids are not checked against the directory. Neither the code nor the model does, and a dangling id is logged as "Unassigned".
- TaskController.Lower: lower-cases ASCII letters only. JavaScript's `toLowerCase` applies full Unicode case mapping.
- TaskController.ValidateTaskTitle: treats the uniqueness lookup as case-insensitive string equality. The code builds an unescaped regular expression from the title, so a title with regex metacharacters can clash with other titles, or make the query fail.
- User records are reduced to id and username. `user.model.js` is not part of this model.
