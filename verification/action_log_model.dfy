/**
 * The audit-log record (backend/src/models/actionLog.model.js): who acted,
 * which of the five actions, on which task, and a free-form details object.
 */
module ActionLogModel {
  import opened Wrappers
  import opened TaskModel

  datatype ActionType = Created | Updated | Deleted | Assigned | StatusChanged

  /** The string stored in `actionType`. */
  function ActionTypeName(a: ActionType): string {
    match a
    case Created => "TASK_CREATED"
    case Updated => "TASK_UPDATED"
    case Deleted => "TASK_DELETED"
    case Assigned => "TASK_ASSIGNED"
    case StatusChanged => "TASK_STATUS_CHANGED"
  }

  /** The schema's enum check on `actionType`: exactly five names are accepted. */
  function ParseActionType(name: string): (r: Option<ActionType>)
    ensures forall a: ActionType :: r == Some(a) <==> ActionTypeName(a) == name
  {
    if name == "TASK_CREATED" then Some(Created)
    else if name == "TASK_UPDATED" then Some(Updated)
    else if name == "TASK_DELETED" then Some(Deleted)
    else if name == "TASK_ASSIGNED" then Some(Assigned)
    else if name == "TASK_STATUS_CHANGED" then Some(StatusChanged)
    else None
  }

  /** One row of the per-user load snapshot written by smart assignment. */
  datatype UserCount = UserCount(username: string, count: nat)

  /** The values the controller puts into a details object. */
  datatype Value = Text(text: string) | Absent | Counts(entries: seq<UserCount>)

  /** A details entry: plain metadata, or an {oldValue, newValue} pair. */
  datatype Detail = Plain(value: Value) | Change(oldValue: Value, newValue: Value)

  /** The property names the controller writes into a details object. */
  datatype Key =
    | TitleKey | DescriptionKey | AssignedUserKey | StatusKey | PriorityKey
    | TaskTitleKey | OldAssignedUserKey | NewAssignedUserKey | ActiveTaskCountsKey

  function KeyName(k: Key): string {
    match k
    case TitleKey => "title"
    case DescriptionKey => "description"
    case AssignedUserKey => "assignedUser"
    case StatusKey => "status"
    case PriorityKey => "priority"
    case TaskTitleKey => "taskTitle"
    case OldAssignedUserKey => "oldAssignedUser"
    case NewAssignedUserKey => "newAssignedUser"
    case ActiveTaskCountsKey => "activeTaskCountsBeforeAssignment"
  }

  /**
   * Distinct keys name distinct properties, so a map over `Key` holds the
   * same entries as the details object it stands for.
   */
  lemma KeyNamesDistinct(a: Key, b: Key)
    requires KeyName(a) == KeyName(b)
    ensures a == b
  {
  }

  type Details = map<Key, Detail>

  datatype ActionLog = ActionLog(
    userId: UserId,
    username: string,
    actionType: ActionType,
    taskId: Option<TaskId>,
    details: Details)

  /** `ActionLog.create({...})`: `details` defaults to the empty object. */
  function NewLog(userId: UserId, username: string, actionType: ActionType,
                  taskId: Option<TaskId>, details: Option<Details>): (e: ActionLog)
    ensures e.userId == userId && e.username == username
    ensures e.actionType == actionType && e.taskId == taskId
    ensures details.None? ==> e.details == map[]
    ensures details.Some? ==> e.details == details.value
  {
    ActionLog(userId, username, actionType, taskId,
              if details.Some? then details.value else map[])
  }

  /**
   * The schema's `required` checks that a record can fail: a required
   * string is rejected when it is empty. The user id, the action type and
   * the details are always present in this model.
   */
  predicate Admissible(e: ActionLog) {
    e.username != ""
  }
}
