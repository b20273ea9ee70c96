/**
 * The task record of the board (backend/src/models/task.model.js): its two
 * enumerations, its fields and the defaults the schema fills in.
 */
module TaskModel {
  import opened Wrappers

  /** Object ids are opaque to the controller; naturals stand in for them. */
  type TaskId = nat
  type UserId = nat

  /** The board columns a task can sit in. */
  datatype Status = Todo | InProgress | Done

  datatype Priority = Low | Medium | High

  const DefaultStatus: Status := Todo
  const DefaultPriority: Priority := Medium

  /** The string the schema stores for a status. */
  function StatusName(s: Status): string {
    match s
    case Todo => "Todo"
    case InProgress => "In Progress"
    case Done => "Done"
  }

  /** The schema's enum check on `status`: only the three names are accepted. */
  function ParseStatus(name: string): (r: Option<Status>)
    ensures forall s: Status :: r == Some(s) <==> StatusName(s) == name
  {
    if name == "Todo" then Some(Todo)
    else if name == "In Progress" then Some(InProgress)
    else if name == "Done" then Some(Done)
    else None
  }

  function PriorityName(p: Priority): string {
    match p
    case Low => "Low"
    case Medium => "Medium"
    case High => "High"
  }

  /** The schema's enum check on `priority`. */
  function ParsePriority(name: string): (r: Option<Priority>)
    ensures forall p: Priority :: r == Some(p) <==> PriorityName(p) == name
  {
    if name == "Low" then Some(Low)
    else if name == "Medium" then Some(Medium)
    else if name == "High" then Some(High)
    else None
  }

  /**
   * A stored task. `description` is optional, `assignedUser` is a nullable
   * reference to a user, `version` is the optimistic-concurrency counter.
   * Timestamps are not modelled.
   */
  datatype Task = Task(
    id: TaskId,
    title: string,
    description: Option<string>,
    assignedUser: Option<UserId>,
    status: Status,
    priority: Priority,
    version: nat)

  /**
   * `new Task({...})`: the fields the caller leaves out take the schema's
   * defaults (no assignee, Todo, Medium) and the version starts at 0.
   */
  function NewTask(id: TaskId, title: string, description: Option<string>,
                   assignedUser: Option<UserId>, status: Option<Status>,
                   priority: Option<Priority>): (t: Task)
    ensures t.id == id && t.title == title && t.description == description
    ensures t.assignedUser == assignedUser
    ensures status.None? ==> t.status == Todo
    ensures status.Some? ==> t.status == status.value
    ensures priority.None? ==> t.priority == Medium
    ensures priority.Some? ==> t.priority == priority.value
    ensures t.version == 0
  {
    Task(id, title, description, assignedUser,
         if status.Some? then status.value else DefaultStatus,
         if priority.Some? then priority.value else DefaultPriority,
         0)
  }
}
