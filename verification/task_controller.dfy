/**
 * The task mutation engine (backend/src/controller/task.controller.js).
 *
 * The first half is a value-level specification: a `BoardState` (the task
 * collection, the user directory, the action log and the broadcast events),
 * one function per handler giving the next state and the handler's outcome,
 * and lemmas about those functions. The second half is the class `Board`,
 * whose methods are the handlers written step by step as the controller
 * does them, each proved to produce exactly what its function specifies.
 */
module TaskController {
  import opened Wrappers
  import opened TaskModel
  import opened ActionLogModel

  /** The two fields of a user record the controller reads. */
  datatype User = User(id: UserId, username: string)

  /** What `io.emit` broadcasts, in emission order. */
  datatype Event =
    | NewActionLogEntry(entry: ActionLog)
    | TaskCreated(task: Task)
    | TaskUpdated(task: Task)
    | TaskDeleted(id: TaskId)

  /** A handler's response, without HTTP codes and JSON bodies. */
  datatype Outcome =
    | Ok(task: Task)
    | Removed
    | NotFound
    | Conflict(latest: Task)
    | Invalid(message: string)
    | NoUsers

  datatype BoardState = BoardState(
    tasks: map<TaskId, Task>,
    users: seq<User>,
    log: seq<ActionLog>,
    events: seq<Event>,
    nextId: TaskId)

  datatype Step = Step(state: BoardState, outcome: Outcome)

  // ---------------------------------------------------------------------
  // Case-insensitive comparison of titles (ASCII letters only)
  // ---------------------------------------------------------------------

  function LowerChar(c: char): char {
    if 'A' <= c <= 'Z' then (c as int + 32) as char else c
  }

  function Lower(s: string): (r: string)
    ensures |r| == |s|
    ensures forall i :: 0 <= i < |s| ==> r[i] == LowerChar(s[i])
  {
    if s == [] then [] else [LowerChar(s[0])] + Lower(s[1..])
  }

  // ---------------------------------------------------------------------
  // validateTaskTitle
  // ---------------------------------------------------------------------

  const ColumnNames: seq<string> := ["Todo", "In Progress", "Done"]

  predicate IsColumnName(title: string) {
    exists name | name in ColumnNames :: Lower(name) == Lower(title)
  }

  /** Some task other than `exclude` already has `title`, ignoring case. */
  predicate TitleTaken(tasks: map<TaskId, Task>, title: string, exclude: Option<TaskId>) {
    exists id | id in tasks && exclude != Some(id) :: Lower(tasks[id].title) == Lower(title)
  }

  datatype TitleCheck = Accepted | Rejected(message: string)

  function ColumnNameMessage(title: string): string {
    "Task title cannot be \"" + title + "\" (a column name)."
  }

  const UniqueTitleMessage := "Task title must be unique."

  /** The error Mongoose reports when the required title is empty. */
  const RequiredTitleMessage := "Task validation failed: title: Path `title` is required."

  function ValidateTaskTitle(tasks: map<TaskId, Task>, title: string, exclude: Option<TaskId>): (v: TitleCheck)
    ensures v.Accepted? <==>
              (forall name | name in ColumnNames :: Lower(name) != Lower(title)) &&
              (forall id | id in tasks && exclude != Some(id) :: Lower(tasks[id].title) != Lower(title))
    ensures IsColumnName(title) ==> v == Rejected(ColumnNameMessage(title))
    ensures !IsColumnName(title) && TitleTaken(tasks, title, exclude) ==> v == Rejected(UniqueTitleMessage)
  {
    if IsColumnName(title) then Rejected(ColumnNameMessage(title))
    else if TitleTaken(tasks, title, exclude) then Rejected(UniqueTitleMessage)
    else Accepted
  }

  /** Every case variant of every status name is refused as a title. */
  lemma ReservedTitleRejected(tasks: map<TaskId, Task>, title: string, exclude: Option<TaskId>, s: Status)
    requires Lower(title) == Lower(StatusName(s))
    ensures ValidateTaskTitle(tasks, title, exclude) == Rejected(ColumnNameMessage(title))
  {
    assert StatusName(s) in ColumnNames;
  }

  /** A title equal, ignoring case, to another task's title is refused. */
  lemma DuplicateTitleRejected(tasks: map<TaskId, Task>, title: string, exclude: Option<TaskId>, other: TaskId)
    requires other in tasks && exclude != Some(other)
    requires Lower(tasks[other].title) == Lower(title)
    ensures ValidateTaskTitle(tasks, title, exclude).Rejected?
  {
  }

  // ---------------------------------------------------------------------
  // The board invariant
  // ---------------------------------------------------------------------

  /**
   * Every stored task sits under its own id, below the next id to hand out;
   * titles are non-empty, are not column names, and are pairwise distinct
   * ignoring case.
   */
  ghost predicate Invariant(s: BoardState) {
    && (forall id | id in s.tasks :: id < s.nextId && s.tasks[id].id == id)
    && (forall id | id in s.tasks :: s.tasks[id].title != "" && !IsColumnName(s.tasks[id].title))
    && (forall a, b | a in s.tasks && b in s.tasks && a != b ::
          Lower(s.tasks[a].title) != Lower(s.tasks[b].title))
  }

  // ---------------------------------------------------------------------
  // logAction
  // ---------------------------------------------------------------------

  /**
   * The entries `logAction` adds: one record, unless the log schema rejects
   * it, in which case the error is swallowed and nothing is added.
   */
  function LogEntries(actor: User, actionType: ActionType, taskId: TaskId, details: Details): (es: seq<ActionLog>)
    ensures actor.username != "" ==> es == [ActionLog(actor.id, actor.username, actionType, Some(taskId), details)]
    ensures actor.username == "" ==> es == []
  {
    var e := NewLog(actor.id, actor.username, actionType, Some(taskId), Some(details));
    if Admissible(e) then [e] else []
  }

  /** One `newActionLogEntry` broadcast per persisted entry. */
  function Announce(es: seq<ActionLog>): seq<Event> {
    seq(|es|, i requires 0 <= i < |es| => NewActionLogEntry(es[i]))
  }

  function Logged(s: BoardState, es: seq<ActionLog>): BoardState {
    s.(log := s.log + es, events := s.events + Announce(es))
  }

  // ---------------------------------------------------------------------
  // User lookups (`User.findById` and `populate`)
  // ---------------------------------------------------------------------

  function FindUser(users: seq<User>, uid: UserId): (r: Option<User>)
    ensures r.Some? ==> r.value in users && r.value.id == uid
    ensures r.None? ==> forall u | u in users :: u.id != uid
  {
    if users == [] then None
    else if users[0].id == uid then Some(users[0])
    else FindUser(users[1..], uid)
  }

  const Unassigned := "Unassigned"

  /** `user?.username || "Unassigned"`: a missing, dangling or blank reference reads as Unassigned. */
  function UsernameOf(users: seq<User>, uid: Option<UserId>): (name: string)
    ensures name != ""
    ensures uid.None? ==> name == Unassigned
    ensures name != Unassigned ==> uid.Some? && FindUser(users, uid.value) == Some(User(uid.value, name))
    ensures uid.Some? && FindUser(users, uid.value).Some? && FindUser(users, uid.value).value.username != "" ==>
              name == FindUser(users, uid.value).value.username
  {
    match uid
    case None => Unassigned
    case Some(u) =>
      match FindUser(users, u)
      case None => Unassigned
      case Some(user) => if user.username == "" then Unassigned else user.username
  }

  // ---------------------------------------------------------------------
  // createTask
  // ---------------------------------------------------------------------

  /** The details of a TASK_CREATED entry: the new task's title, status and assignee name. */
  function CreatedDetails(users: seq<User>, t: Task): (d: Details)
    ensures d.Keys == {TitleKey, StatusKey, AssignedUserKey}
    ensures d[TitleKey] == Plain(Text(t.title))
    ensures d[StatusKey] == Plain(Text(StatusName(t.status)))
    ensures d[AssignedUserKey].Plain? && d[AssignedUserKey].value.Text? && d[AssignedUserKey].value.text != ""
    ensures t.assignedUser.None? ==> d[AssignedUserKey] == Plain(Text(Unassigned))
    ensures d[AssignedUserKey] == Plain(Text(UsernameOf(users, t.assignedUser)))
  {
    map[TitleKey := Plain(Text(t.title)),
        StatusKey := Plain(Text(StatusName(t.status))),
        AssignedUserKey := Plain(Text(UsernameOf(users, t.assignedUser)))]
  }

  function Create(s: BoardState, actor: User, title: string, description: Option<string>,
                  assignedUser: Option<UserId>, status: Option<Status>, priority: Option<Priority>): (st: Step)
    ensures st.outcome.Ok? || st.outcome.Invalid?
    ensures st.outcome.Invalid? <==> IsColumnName(title) || TitleTaken(s.tasks, title, None) || title == ""
    ensures st.outcome.Invalid? ==> st.state == s
    ensures IsColumnName(title) ==> st.outcome == Invalid(ColumnNameMessage(title))
    ensures ValidateTaskTitle(s.tasks, title, None).Rejected? ==>
              st.outcome == Invalid(ValidateTaskTitle(s.tasks, title, None).message)
    ensures !IsColumnName(title) && TitleTaken(s.tasks, title, None) ==> st.outcome == Invalid(UniqueTitleMessage)
    ensures ValidateTaskTitle(s.tasks, title, None).Accepted? && title == "" ==>
              st.outcome == Invalid(RequiredTitleMessage)
    ensures st.outcome.Ok? ==>
              var t := st.outcome.task;
              && t == NewTask(s.nextId, title, description, assignedUser, status, priority)
              && st.state.tasks == s.tasks[t.id := t]
              && st.state.users == s.users
              && st.state.nextId == s.nextId + 1
              && var es := LogEntries(actor, Created, t.id, CreatedDetails(s.users, t));
                 && st.state.log == s.log + es
                 && st.state.events == s.events + Announce(es) + [TaskCreated(t)]
  {
    match ValidateTaskTitle(s.tasks, title, None)
    case Rejected(msg) => Step(s, Invalid(msg))
    case Accepted =>
      if title == "" then Step(s, Invalid(RequiredTitleMessage))
      else
        var t := NewTask(s.nextId, title, description, assignedUser, status, priority);
        var saved := s.(tasks := s.tasks[t.id := t], nextId := s.nextId + 1);
        var logged := Logged(saved, LogEntries(actor, Created, t.id, CreatedDetails(s.users, t)));
        Step(logged.(events := logged.events + [TaskCreated(t)]), Ok(t))
  }

  // ---------------------------------------------------------------------
  // updateTask
  // ---------------------------------------------------------------------

  /**
   * The request body of an update. `None` is a field left out of the body;
   * `assignedUser` may also be supplied as null (`Some(None)`).
   */
  datatype Patch = Patch(
    title: Option<string>,
    description: Option<string>,
    assignedUser: Option<Option<UserId>>,
    status: Option<Status>,
    priority: Option<Priority>)

  /** A supplied, non-empty title that differs from the current one ignoring case. */
  predicate TitleDiffers(t: Task, p: Patch) {
    p.title.Some? && p.title.value != "" && Lower(p.title.value) != Lower(t.title)
  }

  predicate DescriptionDiffers(t: Task, p: Patch) {
    p.description.Some? && t.description != Some(p.description.value)
  }

  predicate AssigneeDiffers(t: Task, p: Patch) {
    p.assignedUser.Some? && p.assignedUser.value != t.assignedUser
  }

  predicate StatusDiffers(t: Task, p: Patch) {
    p.status.Some? && p.status.value != t.status
  }

  predicate PriorityDiffers(t: Task, p: Patch) {
    p.priority.Some? && p.priority.value != t.priority
  }

  /** The details keys `updateTask` can write, one per updatable field. */
  const UpdatableKeys: set<Key> := {TitleKey, DescriptionKey, AssignedUserKey, StatusKey, PriorityKey}

  predicate Differs(t: Task, p: Patch, k: Key) {
    match k
    case TitleKey => TitleDiffers(t, p)
    case DescriptionKey => DescriptionDiffers(t, p)
    case AssignedUserKey => AssigneeDiffers(t, p)
    case StatusKey => StatusDiffers(t, p)
    case PriorityKey => PriorityDiffers(t, p)
    case _ => false
  }

  /** The fields an update actually changes. */
  function ChangedFields(t: Task, p: Patch): (changed: set<Key>)
    ensures changed <= UpdatableKeys
    ensures TitleKey in changed <==> TitleDiffers(t, p)
    ensures DescriptionKey in changed <==> DescriptionDiffers(t, p)
    ensures AssignedUserKey in changed <==> AssigneeDiffers(t, p)
    ensures StatusKey in changed <==> StatusDiffers(t, p)
    ensures PriorityKey in changed <==> PriorityDiffers(t, p)
    ensures changed == {} <==>
              !TitleDiffers(t, p) && !DescriptionDiffers(t, p) && !AssigneeDiffers(t, p) &&
              !StatusDiffers(t, p) && !PriorityDiffers(t, p)
  {
    var changed := set k | k in UpdatableKeys && Differs(t, p, k);
    assert Differs(t, p, TitleKey) ==> TitleKey in changed;
    assert Differs(t, p, DescriptionKey) ==> DescriptionKey in changed;
    assert Differs(t, p, AssignedUserKey) ==> AssignedUserKey in changed;
    assert Differs(t, p, StatusKey) ==> StatusKey in changed;
    assert Differs(t, p, PriorityKey) ==> PriorityKey in changed;
    changed
  }

  /** The task after a change: supplied differing fields replaced, version one higher. */
  function Patched(t: Task, p: Patch): (r: Task)
    ensures r.id == t.id && r.version == t.version + 1
    ensures r.title != t.title ==> TitleDiffers(t, p)
    ensures TitleDiffers(t, p) ==> Some(r.title) == p.title
    ensures r.description != t.description ==> DescriptionDiffers(t, p)
    ensures DescriptionDiffers(t, p) ==> r.description == p.description
    ensures r.assignedUser != t.assignedUser ==> AssigneeDiffers(t, p)
    ensures AssigneeDiffers(t, p) ==> Some(r.assignedUser) == p.assignedUser
    ensures r.status != t.status ==> StatusDiffers(t, p)
    ensures StatusDiffers(t, p) ==> Some(r.status) == p.status
    ensures r.priority != t.priority ==> PriorityDiffers(t, p)
    ensures PriorityDiffers(t, p) ==> Some(r.priority) == p.priority
  {
    t.(title := if TitleDiffers(t, p) then p.title.value else t.title,
       description := if DescriptionDiffers(t, p) then p.description else t.description,
       assignedUser := if AssigneeDiffers(t, p) then p.assignedUser.value else t.assignedUser,
       status := if StatusDiffers(t, p) then p.status.value else t.status,
       priority := if PriorityDiffers(t, p) then p.priority.value else t.priority,
       version := t.version + 1)
  }

  function OptionalText(o: Option<string>): Value {
    if o.Some? then Text(o.value) else Absent
  }

  /** The {oldValue, newValue} pair logged for one changed field. */
  function FieldChange(users: seq<User>, t: Task, p: Patch, k: Key): Detail
    requires Differs(t, p, k)
  {
    match k
    case TitleKey => Change(Text(t.title), Text(p.title.value))
    case DescriptionKey => Change(OptionalText(t.description), Text(p.description.value))
    case AssignedUserKey =>
      Change(Text(UsernameOf(users, t.assignedUser)), Text(UsernameOf(users, p.assignedUser.value)))
    case StatusKey => Change(Text(StatusName(t.status)), Text(StatusName(p.status.value)))
    case PriorityKey => Change(Text(PriorityName(t.priority)), Text(PriorityName(p.priority.value)))
  }

  /** The entries of `UpdateDetails` that concern the given fields. */
  function DetailsAmong(users: seq<User>, t: Task, p: Patch, fields: set<Key>): Details {
    map k | k in fields && Differs(t, p, k) :: FieldChange(users, t, p, k)
  }

  /** Considering one more field adds its pair exactly when it changed. */
  lemma DetailsAmongStep(users: seq<User>, t: Task, p: Patch, fields: set<Key>, f: Key)
    ensures DetailsAmong(users, t, p, fields + {f}) ==
            if Differs(t, p, f) then DetailsAmong(users, t, p, fields)[f := FieldChange(users, t, p, f)]
            else DetailsAmong(users, t, p, fields)
  {
  }

  /** The details of an update's log entry: an old/new pair for exactly the changed fields. */
  function UpdateDetails(users: seq<User>, t: Task, p: Patch): (d: Details)
    ensures d.Keys == ChangedFields(t, p)
    ensures forall f | f in d :: d[f].Change?
    ensures TitleKey in d ==>
              d[TitleKey] == Change(Text(t.title), Text(Patched(t, p).title))
    ensures DescriptionKey in d ==>
              d[DescriptionKey] == Change(OptionalText(t.description), OptionalText(Patched(t, p).description))
    ensures AssignedUserKey in d ==>
              d[AssignedUserKey] == Change(Text(UsernameOf(users, t.assignedUser)),
                                           Text(UsernameOf(users, Patched(t, p).assignedUser)))
    ensures StatusKey in d ==>
              d[StatusKey] == Change(Text(StatusName(t.status)), Text(StatusName(Patched(t, p).status)))
    ensures PriorityKey in d ==>
              d[PriorityKey] == Change(Text(PriorityName(t.priority)), Text(PriorityName(Patched(t, p).priority)))
  {
    map f | f in ChangedFields(t, p) :: FieldChange(users, t, p, f)
  }

  /**
   * The action type of an update, read off the fields it changes: a status
   * change outranks an assignment, which outranks any other change.
   */
  function UpdateAction(t: Task, p: Patch): (a: ActionType)
    ensures a == StatusChanged <==> StatusKey in ChangedFields(t, p)
    ensures a == Assigned <==> AssignedUserKey in ChangedFields(t, p) && StatusKey !in ChangedFields(t, p)
    ensures a == Updated <==> AssignedUserKey !in ChangedFields(t, p) && StatusKey !in ChangedFields(t, p)
  {
    if StatusDiffers(t, p) then StatusChanged
    else if AssigneeDiffers(t, p) then Assigned
    else Updated
  }

  function Update(s: BoardState, actor: User, id: TaskId, version: int, p: Patch): (st: Step)
    ensures id !in s.tasks ==> st == Step(s, NotFound)
    ensures id in s.tasks && s.tasks[id].version != version ==> st == Step(s, Conflict(s.tasks[id]))
    ensures !st.outcome.Ok? ==> st.state == s
    ensures st.outcome.Invalid? ==>
              id in s.tasks && TitleDiffers(s.tasks[id], p) &&
              ValidateTaskTitle(s.tasks, p.title.value, Some(id)) == Rejected(st.outcome.message)
    ensures id in s.tasks && s.tasks[id].version == version && TitleDiffers(s.tasks[id], p) &&
            ValidateTaskTitle(s.tasks, p.title.value, Some(id)).Rejected? ==>
              st == Step(s, Invalid(ValidateTaskTitle(s.tasks, p.title.value, Some(id)).message))
    ensures id in s.tasks && s.tasks[id].version == version && ChangedFields(s.tasks[id], p) == {} ==>
              st == Step(s, Ok(s.tasks[id]))
    ensures id in s.tasks && s.tasks[id].version == version && ChangedFields(s.tasks[id], p) != {} &&
            !(TitleDiffers(s.tasks[id], p) && ValidateTaskTitle(s.tasks, p.title.value, Some(id)).Rejected?) ==>
              var t := s.tasks[id];
              && st.outcome == Ok(Patched(t, p))
              && st.outcome.task.version == version + 1
              && st.state.tasks == s.tasks[id := st.outcome.task]
              && st.state.users == s.users && st.state.nextId == s.nextId
              && var es := LogEntries(actor, UpdateAction(t, p), id, UpdateDetails(s.users, t, p));
                 && st.state.log == s.log + es
                 && st.state.events == s.events + Announce(es) + [TaskUpdated(st.outcome.task)]
  {
    if id !in s.tasks then Step(s, NotFound)
    else
      var t := s.tasks[id];
      if t.version != version then Step(s, Conflict(t))
      else if TitleDiffers(t, p) && ValidateTaskTitle(s.tasks, p.title.value, Some(id)).Rejected? then
        Step(s, Invalid(ValidateTaskTitle(s.tasks, p.title.value, Some(id)).message))
      else if ChangedFields(t, p) == {} then Step(s, Ok(t))
      else
        var t' := Patched(t, p);
        var saved := s.(tasks := s.tasks[id := t']);
        var logged := Logged(saved, LogEntries(actor, UpdateAction(t, p), id, UpdateDetails(s.users, t, p)));
        Step(logged.(events := logged.events + [TaskUpdated(t')]), Ok(t'))
  }

  // ---------------------------------------------------------------------
  // deleteTask
  // ---------------------------------------------------------------------

  function Delete(s: BoardState, actor: User, id: TaskId): (st: Step)
    ensures id !in s.tasks ==> st == Step(s, NotFound)
    ensures id in s.tasks ==>
              var t := s.tasks[id];
              && st.outcome == Removed
              && st.state.tasks == s.tasks - {id}
              && st.state.users == s.users && st.state.nextId == s.nextId
              && var es := LogEntries(actor, Deleted, id,
                                      map[TitleKey := Plain(Text(t.title)),
                                          StatusKey := Plain(Text(StatusName(t.status)))]);
                 && st.state.log == s.log + es
                 && st.state.events == s.events + Announce(es) + [TaskDeleted(id)]
  {
    if id !in s.tasks then Step(s, NotFound)
    else
      var t := s.tasks[id];
      var removed := s.(tasks := s.tasks - {id});
      var logged := Logged(removed, LogEntries(actor, Deleted, id,
                                               map[TitleKey := Plain(Text(t.title)),
                                                   StatusKey := Plain(Text(StatusName(t.status)))]));
      Step(logged.(events := logged.events + [TaskDeleted(id)]), Removed)
  }

  // ---------------------------------------------------------------------
  // smartAssignTask
  // ---------------------------------------------------------------------

  predicate IsActive(s: Status) {
    s == Todo || s == InProgress
  }

  /** The user's tasks whose stored status is "Todo" or "In Progress". */
  function ActiveTasks(tasks: map<TaskId, Task>, uid: UserId): (r: set<TaskId>)
    ensures r <= tasks.Keys
  {
    set id | id in tasks && tasks[id].assignedUser == Some(uid) && IsActive(tasks[id].status)
  }

  /**
   * A task is among the user's active tasks exactly when the count query
   * matches it: assigned to that user, with stored status "Todo" or
   * "In Progress".
   */
  lemma ActiveTasksQuery(tasks: map<TaskId, Task>, uid: UserId, id: TaskId)
    requires id in tasks
    ensures id in ActiveTasks(tasks, uid) <==>
              tasks[id].assignedUser == Some(uid) && StatusName(tasks[id].status) in ["Todo", "In Progress"]
  {
  }

  /** `Task.countDocuments` over the user's Todo and In Progress tasks. */
  function ActiveCount(tasks: map<TaskId, Task>, uid: UserId): (count: nat)
    ensures count <= |tasks|
  {
    SubsetCardinality(ActiveTasks(tasks, uid), tasks.Keys);
    |ActiveTasks(tasks, uid)|
  }

  /** Each user's active-task count, in directory order. */
  function Loads(tasks: map<TaskId, Task>, users: seq<User>): (loads: seq<nat>)
    ensures |loads| == |users|
  {
    seq(|users|, i requires 0 <= i < |users| => ActiveCount(tasks, users[i].id))
  }

  /** The per-user snapshot written to the log, in directory order. */
  function Snapshot(tasks: map<TaskId, Task>, users: seq<User>): (counts: seq<UserCount>)
    ensures |counts| == |users|
    ensures forall i | 0 <= i < |users| ::
              counts[i].username == users[i].username && counts[i].count == Loads(tasks, users)[i]
  {
    seq(|users|, i requires 0 <= i < |users| => UserCount(users[i].username, ActiveCount(tasks, users[i].id)))
  }

  /**
   * The index the scan settles on: a smallest load, and the first one among
   * equals, since a later user replaces the current pick only when strictly
   * smaller.
   */
  function FirstLeastLoaded(loads: seq<nat>): (k: nat)
    requires |loads| > 0
    ensures k < |loads|
    ensures forall j | 0 <= j < |loads| :: loads[k] <= loads[j]
    ensures forall j | 0 <= j < k :: loads[k] < loads[j]
    decreases |loads|
  {
    if |loads| == 1 then 0
    else
      var k := FirstLeastLoaded(loads[..|loads| - 1]);
      if loads[|loads| - 1] < loads[k] then |loads| - 1 else k
  }

  /** Loads 1, 0, 0: the second user wins, ahead of the third, with whom it ties. */
  lemma TieGoesToEarlierUser()
    ensures FirstLeastLoaded([1, 0, 0]) == 1
  {
    assert [1, 0, 0][..2] == [1, 0];
    assert [1, 0][..1] == [1];
  }

  /**
   * The details of a TASK_ASSIGNED entry: the task's title, the old and new
   * assignee names, and the load snapshot the choice was made from.
   */
  function SmartAssignDetails(s: BoardState, t: Task, winner: User): (d: Details)
    ensures d.Keys == {TaskTitleKey, OldAssignedUserKey, NewAssignedUserKey, ActiveTaskCountsKey}
    ensures d[TaskTitleKey] == Plain(Text(t.title))
    ensures d[OldAssignedUserKey].Plain? && d[OldAssignedUserKey].value.Text? && d[OldAssignedUserKey].value.text != ""
    ensures d[OldAssignedUserKey] == Plain(Text(UsernameOf(s.users, t.assignedUser)))
    ensures d[NewAssignedUserKey] == Plain(Text(winner.username))
    ensures d[ActiveTaskCountsKey].Plain? && d[ActiveTaskCountsKey].value.Counts?
    ensures var counts := d[ActiveTaskCountsKey].value.entries;
            && |counts| == |s.users|
            && forall i | 0 <= i < |counts| ::
                 counts[i] == UserCount(s.users[i].username, ActiveCount(s.tasks, s.users[i].id))
  {
    map[TaskTitleKey := Plain(Text(t.title)),
        OldAssignedUserKey := Plain(Text(UsernameOf(s.users, t.assignedUser))),
        NewAssignedUserKey := Plain(Text(winner.username)),
        ActiveTaskCountsKey := Plain(Counts(Snapshot(s.tasks, s.users)))]
  }

  function SmartAssign(s: BoardState, actor: User, id: TaskId, version: int): (st: Step)
    ensures id !in s.tasks ==> st == Step(s, NotFound)
    ensures id in s.tasks && s.tasks[id].version != version ==> st == Step(s, Conflict(s.tasks[id]))
    ensures id in s.tasks && s.tasks[id].version == version && |s.users| == 0 ==> st == Step(s, NoUsers)
    ensures !st.outcome.Ok? ==> st.state == s
    ensures id in s.tasks && s.tasks[id].version == version && |s.users| > 0 ==>
              var t := s.tasks[id];
              var winner := s.users[FirstLeastLoaded(Loads(s.tasks, s.users))];
              && st.outcome == Ok(t.(assignedUser := Some(winner.id), version := version + 1))
              && st.state.tasks == s.tasks[id := st.outcome.task]
              && st.state.users == s.users && st.state.nextId == s.nextId
              && var es := LogEntries(actor, Assigned, id, SmartAssignDetails(s, t, winner));
                 && st.state.log == s.log + es
                 && st.state.events == s.events + Announce(es) + [TaskUpdated(st.outcome.task)]
  {
    if id !in s.tasks then Step(s, NotFound)
    else
      var t := s.tasks[id];
      if t.version != version then Step(s, Conflict(t))
      else if |s.users| == 0 then Step(s, NoUsers)
      else
        var winner := s.users[FirstLeastLoaded(Loads(s.tasks, s.users))];
        var t' := t.(assignedUser := Some(winner.id), version := t.version + 1);
        var saved := s.(tasks := s.tasks[id := t']);
        var logged := Logged(saved, LogEntries(actor, Assigned, id, SmartAssignDetails(s, t, winner)));
        Step(logged.(events := logged.events + [TaskUpdated(t')]), Ok(t'))
  }

  // ---------------------------------------------------------------------
  // Properties of the handlers
  // ---------------------------------------------------------------------

  lemma CreatePreservesInvariant(s: BoardState, actor: User, title: string, description: Option<string>,
                                 assignedUser: Option<UserId>, status: Option<Status>, priority: Option<Priority>)
    requires Invariant(s)
    ensures Invariant(Create(s, actor, title, description, assignedUser, status, priority).state)
  {
    var st := Create(s, actor, title, description, assignedUser, status, priority);
    if st.outcome.Ok? {
      var t := st.outcome.task;
      assert t.id !in s.tasks;
      assert !TitleTaken(s.tasks, title, None);
      forall a, b | a in st.state.tasks && b in st.state.tasks && a != b
        ensures Lower(st.state.tasks[a].title) != Lower(st.state.tasks[b].title)
      {
        if a == t.id {
          assert b in s.tasks;
        } else if b == t.id {
          assert a in s.tasks;
        }
      }
    }
  }

  lemma UpdatePreservesInvariant(s: BoardState, actor: User, id: TaskId, version: int, p: Patch)
    requires Invariant(s)
    ensures Invariant(Update(s, actor, id, version, p).state)
  {
    var st := Update(s, actor, id, version, p);
    if st.state != s {
      var t := s.tasks[id];
      var t' := st.outcome.task;
      if TitleDiffers(t, p) {
        assert ValidateTaskTitle(s.tasks, p.title.value, Some(id)).Accepted?;
      } else {
        assert t'.title == t.title;
      }
      forall a, b | a in st.state.tasks && b in st.state.tasks && a != b
        ensures Lower(st.state.tasks[a].title) != Lower(st.state.tasks[b].title)
      {
        if a == id {
          assert b in s.tasks;
        } else if b == id {
          assert a in s.tasks;
        }
      }
    }
  }

  lemma DeletePreservesInvariant(s: BoardState, actor: User, id: TaskId)
    requires Invariant(s)
    ensures Invariant(Delete(s, actor, id).state)
  {
  }

  lemma SmartAssignPreservesInvariant(s: BoardState, actor: User, id: TaskId, version: int)
    requires Invariant(s)
    ensures Invariant(SmartAssign(s, actor, id, version).state)
  {
    var st := SmartAssign(s, actor, id, version);
    if id in s.tasks && s.tasks[id].version == version && |s.users| > 0 {
      assert st.state.tasks.Keys == s.tasks.Keys;
      assert forall k | k in st.state.tasks ::
               st.state.tasks[k].title == s.tasks[k].title && st.state.tasks[k].id == s.tasks[k].id;
    }
  }

  /**
   * First writer wins: once an update or smart assignment has been accepted
   * against version v, any other request still carrying v is refused with
   * the task as it now stands.
   */
  lemma FirstWriterWins(s: BoardState, first: Step, actor: User, id: TaskId, version: int, p: Patch)
    requires first == Update(s, actor, id, version, p) || first == SmartAssign(s, actor, id, version)
    requires first.outcome.Ok? && first.state != s
    ensures id in first.state.tasks && first.state.tasks[id] == first.outcome.task
    ensures first.outcome.task.version == version + 1
    ensures forall other: User, q: Patch :: Update(first.state, other, id, version, q) == Step(first.state, Conflict(first.outcome.task))
    ensures forall other: User :: SmartAssign(first.state, other, id, version) == Step(first.state, Conflict(first.outcome.task))
  {
  }

  /** Sending the same update again, with the version it produced, changes nothing. */
  lemma UpdateIdempotent(s: BoardState, actor: User, id: TaskId, version: int, p: Patch)
    requires Update(s, actor, id, version, p).outcome.Ok?
    ensures var st := Update(s, actor, id, version, p);
            Update(st.state, actor, id, st.outcome.task.version, p) == Step(st.state, st.outcome)
  {
    var st := Update(s, actor, id, version, p);
    var t := s.tasks[id];
    var t' := st.outcome.task;
    assert st.state.tasks[id] == t';
    if ChangedFields(t, p) != {} {
      assert t' == Patched(t, p);
      assert !TitleDiffers(t', p);
      assert ChangedFields(t', p) == {};
    }
  }

  /** The action type follows the code's order: a status change overrides an assignment. */
  lemma StatusOverridesAssignment(users: seq<User>, t: Task, p: Patch)
    requires StatusDiffers(t, p) && AssigneeDiffers(t, p)
    ensures UpdateAction(t, p) == StatusChanged
    ensures UpdateDetails(users, t, p).Keys >= {AssignedUserKey, StatusKey}
  {
  }

  /**
   * Smart assignment hands the task to the first user, in directory order,
   * whose active-task count is strictly smallest, even when that user
   * already holds the task.
   */
  lemma SmartAssignTarget(s: BoardState, actor: User, id: TaskId, version: int, k: nat)
    requires SmartAssign(s, actor, id, version).outcome.Ok?
    requires k < |s.users|
    requires forall j | 0 <= j < |s.users| :: Loads(s.tasks, s.users)[k] <= Loads(s.tasks, s.users)[j]
    requires forall j | 0 <= j < k :: Loads(s.tasks, s.users)[k] < Loads(s.tasks, s.users)[j]
    ensures SmartAssign(s, actor, id, version).outcome.task.assignedUser == Some(s.users[k].id)
    ensures SmartAssign(s, actor, id, version).outcome.task.version == s.tasks[id].version + 1
  {
  }

  lemma SubsetCardinality<T>(a: set<T>, b: set<T>)
    requires a <= b
    ensures |a| <= |b|
  {
    if a != {} {
      var x :| x in a;
      SubsetCardinality(a - {x}, b - {x});
    }
  }

  /**
   * Smart assignment balances load: only the assigned task can join the new
   * assignee's active tasks, so afterwards that user holds at most one more
   * active task than any user held before.
   */
  lemma SmartAssignBalancesLoad(s: BoardState, actor: User, id: TaskId, version: int, j: nat)
    requires SmartAssign(s, actor, id, version).outcome.Ok?
    requires j < |s.users|
    ensures var st := SmartAssign(s, actor, id, version);
            && st.outcome.task.assignedUser.Some?
            && ActiveCount(st.state.tasks, st.outcome.task.assignedUser.value) <= ActiveCount(s.tasks, s.users[j].id) + 1
  {
    var st := SmartAssign(s, actor, id, version);
    var loads := Loads(s.tasks, s.users);
    var k := FirstLeastLoaded(loads);
    var w := s.users[k].id;
    var before := ActiveTasks(s.tasks, w);
    var after := ActiveTasks(st.state.tasks, w);
    assert st.outcome.task.assignedUser == Some(w);
    assert after <= before + {id};
    SubsetCardinality(after, before + {id});
    assert loads[k] <= loads[j];
  }

  /** One more user extends the snapshot by that user's name and count. */
  lemma SnapshotStep(tasks: map<TaskId, Task>, users: seq<User>, i: nat)
    requires i < |users|
    ensures Loads(tasks, users)[i] == ActiveCount(tasks, users[i].id)
    ensures Snapshot(tasks, users)[..i + 1] ==
            Snapshot(tasks, users)[..i] + [UserCount(users[i].username, ActiveCount(tasks, users[i].id))]
  {
    assert Snapshot(tasks, users)[..i + 1] == Snapshot(tasks, users)[..i] + [Snapshot(tasks, users)[i]];
  }

  /** One more load moves the choice to it exactly when it is strictly smaller. */
  lemma FirstLeastLoadedStep(loads: seq<nat>, i: nat)
    requires 0 < i < |loads|
    ensures FirstLeastLoaded(loads[..i + 1]) ==
            if loads[i] < loads[FirstLeastLoaded(loads[..i])] then i else FirstLeastLoaded(loads[..i])
  {
    assert loads[..i + 1][..i] == loads[..i];
  }

  /**
   * The field-by-field pass of `updateTask` once the title has been
   * validated: each supplied field that differs is copied into the task, its
   * old/new pair is recorded, and the action type is reassigned in the
   * order the checks run.
   */
  method DiffFields(users: seq<User>, current: Task, patch: Patch)
    returns (task: Task, details: Details, actionType: ActionType)
    ensures details == UpdateDetails(users, current, patch)
    ensures actionType == UpdateAction(current, patch)
    ensures task == Patched(current, patch).(version := current.version)
    ensures details == map[] ==> task == current
  {
    task := current;
    details := map[];
    actionType := Updated;
    ghost var patched := Patched(current, patch);
    ghost var seen: set<Key> := {};
    assert details == DetailsAmong(users, current, patch, seen);

    if patch.title.Some? && patch.title.value != "" && Lower(patch.title.value) != Lower(task.title) {
      details := details[TitleKey := Change(Text(task.title), Text(patch.title.value))];
      task := task.(title := patch.title.value);
    }
    DetailsAmongStep(users, current, patch, seen, TitleKey);
    seen := seen + {TitleKey};
    assert details == DetailsAmong(users, current, patch, seen);
    assert task == current.(title := patched.title);

    if patch.description.Some? && Some(patch.description.value) != task.description {
      details := details[DescriptionKey := Change(OptionalText(task.description), Text(patch.description.value))];
      task := task.(description := patch.description);
    }
    DetailsAmongStep(users, current, patch, seen, DescriptionKey);
    seen := seen + {DescriptionKey};
    assert details == DetailsAmong(users, current, patch, seen);
    assert task == current.(title := patched.title, description := patched.description);

    if patch.assignedUser.Some? && patch.assignedUser.value != task.assignedUser {
      details := details[AssignedUserKey := Change(Text(UsernameOf(users, task.assignedUser)),
                                                   Text(UsernameOf(users, patch.assignedUser.value)))];
      task := task.(assignedUser := patch.assignedUser.value);
      actionType := Assigned;
    }
    DetailsAmongStep(users, current, patch, seen, AssignedUserKey);
    seen := seen + {AssignedUserKey};
    assert details == DetailsAmong(users, current, patch, seen);
    assert task == current.(title := patched.title, description := patched.description, assignedUser := patched.assignedUser);

    if patch.status.Some? && patch.status.value != task.status {
      details := details[StatusKey := Change(Text(StatusName(task.status)), Text(StatusName(patch.status.value)))];
      task := task.(status := patch.status.value);
      actionType := StatusChanged;
    }
    DetailsAmongStep(users, current, patch, seen, StatusKey);
    seen := seen + {StatusKey};
    assert details == DetailsAmong(users, current, patch, seen);
    assert task == current.(title := patched.title, description := patched.description, assignedUser := patched.assignedUser, status := patched.status);

    if patch.priority.Some? && patch.priority.value != task.priority {
      details := details[PriorityKey := Change(Text(PriorityName(task.priority)), Text(PriorityName(patch.priority.value)))];
      task := task.(priority := patch.priority.value);
    }
    DetailsAmongStep(users, current, patch, seen, PriorityKey);
    seen := seen + {PriorityKey};
    assert details == DetailsAmong(users, current, patch, seen);
    assert task == current.(title := patched.title, description := patched.description, assignedUser := patched.assignedUser, status := patched.status, priority := patched.priority);
    assert seen == UpdatableKeys;
    assert DetailsAmong(users, current, patch, seen) == UpdateDetails(users, current, patch);
  }

  /**
   * The scan of `smartAssignTask`: count each user's active tasks in
   * directory order, record the count, and keep the first user whose count
   * is strictly below every count seen before. `None` is the scan's initial
   * "no user yet", whose count is Infinity.
   */
  method ScanActiveCounts(tasks: map<TaskId, Task>, users: seq<User>)
    returns (userWithFewestTasks: Option<nat>, counts: seq<UserCount>)
    ensures userWithFewestTasks.None? <==> |users| == 0
    ensures userWithFewestTasks.Some? ==>
              userWithFewestTasks.value == FirstLeastLoaded(Loads(tasks, users))
    ensures counts == Snapshot(tasks, users)
  {
    ghost var loads := Loads(tasks, users);
    var fewestTasks: Option<nat> := None;
    userWithFewestTasks := None;
    counts := [];
    for i := 0 to |users|
      invariant counts == Snapshot(tasks, users)[..i]
      invariant i == 0 <==> userWithFewestTasks.None?
      invariant fewestTasks.None? <==> userWithFewestTasks.None?
      invariant i > 0 ==>
                  && userWithFewestTasks.value == FirstLeastLoaded(loads[..i])
                  && fewestTasks == Some(loads[userWithFewestTasks.value])
    {
      var activeTasksCount := ActiveCount(tasks, users[i].id);
      SnapshotStep(tasks, users, i);
      if i > 0 {
        FirstLeastLoadedStep(loads, i);
      }
      counts := counts + [UserCount(users[i].username, activeTasksCount)];
      if fewestTasks.None? || activeTasksCount < fewestTasks.value {
        fewestTasks := Some(activeTasksCount);
        userWithFewestTasks := Some(i);
      }
    }
    assert loads[..|users|] == loads;
    assert counts == Snapshot(tasks, users)[..|users|];
  }

  // ---------------------------------------------------------------------
  // The handlers, step by step
  // ---------------------------------------------------------------------

  class Board {
    var tasks: map<TaskId, Task>
    var users: seq<User>
    var log: seq<ActionLog>
    var events: seq<Event>
    var nextId: TaskId

    ghost function State(): BoardState
      reads this
    {
      BoardState(tasks, users, log, events, nextId)
    }

    ghost predicate Valid()
      reads this
    {
      Invariant(State())
    }

    /** An empty board over a user directory. */
    constructor (directory: seq<User>)
      ensures Valid()
      ensures State() == BoardState(map[], directory, [], [], 0)
    {
      tasks := map[];
      users := directory;
      log := [];
      events := [];
      nextId := 0;
    }

    method LogAction(actor: User, actionType: ActionType, taskId: TaskId, details: Details)
      modifies this
      ensures tasks == old(tasks) && users == old(users) && nextId == old(nextId)
      ensures var es := LogEntries(actor, actionType, taskId, details);
              log == old(log) + es && events == old(events) + Announce(es)
    {
      var entry := NewLog(actor.id, actor.username, actionType, Some(taskId), Some(details));
      // ActionLog.create refuses a record that fails the schema; the error is only reported
      if Admissible(entry) {
        log := log + [entry];
        events := events + [NewActionLogEntry(entry)];
      }
      assert LogEntries(actor, actionType, taskId, details) == if Admissible(entry) then [entry] else [];
    }

    method CreateTask(actor: User, title: string, description: Option<string>,
                      assignedUser: Option<UserId>, status: Option<Status>, priority: Option<Priority>)
      returns (r: Outcome)
      requires Valid()
      modifies this
      ensures Valid()
      ensures var st := Create(old(State()), actor, title, description, assignedUser, status, priority);
              State() == st.state && r == st.outcome
    {
      ghost var s := State();
      var validation := ValidateTaskTitle(tasks, title, None);
      if validation.Rejected? {
        return Invalid(validation.message);
      }
      if title == "" {
        return Invalid(RequiredTitleMessage);
      }
      var task := NewTask(nextId, title, description, assignedUser, status, priority);
      tasks := tasks[task.id := task];
      nextId := nextId + 1;
      LogAction(actor, Created, task.id, CreatedDetails(users, task));
      events := events + [TaskCreated(task)];
      r := Ok(task);
      CreatePreservesInvariant(s, actor, title, description, assignedUser, status, priority);
    }

    method UpdateTask(actor: User, id: TaskId, version: int, patch: Patch) returns (r: Outcome)
      requires Valid()
      modifies this
      ensures Valid()
      ensures var st := Update(old(State()), actor, id, version, patch);
              State() == st.state && r == st.outcome
    {
      ghost var s := State();
      UpdatePreservesInvariant(s, actor, id, version, patch);
      if id !in tasks {
        return NotFound;
      }
      var task := tasks[id];
      if task.version != version {
        return Conflict(task);
      }
      ghost var current := task;

      if TitleDiffers(task, patch) {
        var validation := ValidateTaskTitle(tasks, patch.title.value, Some(id));
        if validation.Rejected? {
          return Invalid(validation.message);
        }
      }
      var details, actionType;
      task, details, actionType := DiffFields(users, task, patch);
      if |details| == 0 {
        return Ok(task);
      }

      task := task.(version := task.version + 1);
      assert task == Patched(current, patch);
      tasks := tasks[id := task];
      LogAction(actor, actionType, id, details);
      events := events + [TaskUpdated(task)];
      r := Ok(task);
    }

    method DeleteTask(actor: User, id: TaskId) returns (r: Outcome)
      requires Valid()
      modifies this
      ensures Valid()
      ensures var st := Delete(old(State()), actor, id);
              State() == st.state && r == st.outcome
    {
      if id in tasks {
        var task := tasks[id];
        tasks := tasks - {id};
        LogAction(actor, Deleted, id, map[TitleKey := Plain(Text(task.title)),
                                          StatusKey := Plain(Text(StatusName(task.status)))]);
        events := events + [TaskDeleted(id)];
        r := Removed;
      } else {
        r := NotFound;
      }
    }

    method SmartAssignTask(actor: User, id: TaskId, version: int) returns (r: Outcome)
      requires Valid()
      modifies this
      ensures Valid()
      ensures var st := SmartAssign(old(State()), actor, id, version);
              State() == st.state && r == st.outcome
    {
      ghost var s := State();
      SmartAssignPreservesInvariant(s, actor, id, version);
      if id !in tasks {
        return NotFound;
      }
      var task := tasks[id];
      if task.version != version {
        return Conflict(task);
      }
      if |users| == 0 {
        return NoUsers;
      }

      var userWithFewestTasks, counts := ScanActiveCounts(tasks, users);
      var winner := users[userWithFewestTasks.value];
      var oldAssignedUsername := UsernameOf(users, task.assignedUser);
      var details := map[TaskTitleKey := Plain(Text(task.title)),
                         OldAssignedUserKey := Plain(Text(oldAssignedUsername)),
                         NewAssignedUserKey := Plain(Text(winner.username)),
                         ActiveTaskCountsKey := Plain(Counts(counts))];
      task := task.(assignedUser := Some(winner.id), version := task.version + 1);
      tasks := tasks[id := task];
      LogAction(actor, Assigned, id, details);
      events := events + [TaskUpdated(task)];
      r := Ok(task);
    }
  }
}
