/** Task objects: what the queue, the workers and the agent loop share by reference
    (internal/models/models.go:69-85). */
module Instances {
  import opened Prelude
  import opened Tasks

  datatype TaskStatus = Pending | InProgress | Completed | Failed

  class TaskInstance {
    const id: InstanceId
    const family: FamilyId
    const description: string
    const agentType: AgentType
    const priority: Priority
    const parent: Option<InstanceId>
    const created: int
    var priorityScore: real
    var status: TaskStatus
    var result: Option<string>
    var error: Option<string>

    constructor (id: InstanceId, family: FamilyId, description: string, agentType: AgentType, priority: Priority,
                 parent: Option<InstanceId>, created: int)
      ensures this.id == id && this.family == family && this.description == description && this.agentType == agentType
      ensures this.priority == priority && this.parent == parent && this.created == created
      ensures status == Pending && result == None && error == None && priorityScore == 0.0
    {
      this.id, this.family, this.description, this.agentType := id, family, description, agentType;
      this.priority, this.parent, this.created := priority, parent, created;
      priorityScore, status, result, error := 0.0, Pending, None, None;
    }

    function View(): Task
      reads this
    {
      Task(id, agentType, priority, created, priorityScore)
    }

    function Columns(): TaskColumns
      reads this
    {
      TaskColumns(status, result, error)
    }
  }

  /** The columns of a task row that change while the task runs. */
  datatype TaskColumns = TaskColumns(status: TaskStatus, result: Option<string>, error: Option<string>)

  class TaskRow {
    var columns: TaskColumns

    constructor (columns: TaskColumns)
      ensures this.columns == columns
    {
      this.columns := columns;
    }

    /** An update writes every column from the object; it may fail, and the caller does not look. */
    method Update(columns: TaskColumns, storeFails: bool)
      modifies this
      ensures this.columns == if storeFails then old(this.columns) else columns
    {
      if !storeFails {
        this.columns := columns;
      }
    }
  }
}
