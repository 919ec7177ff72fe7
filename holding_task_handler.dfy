/**
 * `handler/holding_task.go`: the tasks of one holding, at `/holdings/{holdingId}/tasks` and
 * `/holding-tasks/{taskId}`.  The control flow is `TaskHandler`'s; this module fixes the
 * messages and states what each endpoint promises.
 */
module HoldingTaskHandler {
  import opened Wrappers
  import opened Decimal
  import opened HttpWriter
  import opened TaskHandler

  const Words: Wording := Wording(
    "task name is required", "days before must be greater than or equal to 0", "invalid holding_id",
    "failed to get holding tasks", "failed to create holding task", "holding task not found",
    "failed to update holding task", "failed to delete holding task")

  /** An empty name is reported first, then a negative day count; a day count of 0 passes. */
  lemma ValidateHoldingTask(name: string, daysBefore: int, description: string)
    ensures name == "" ==> Validate(Words, CreateTaskRequest(name, daysBefore, description)) == Some("task name is required")
    ensures name != "" && daysBefore < 0 ==>
      Validate(Words, CreateTaskRequest(name, daysBefore, description)) == Some("days before must be greater than or equal to 0")
    ensures name != "" && daysBefore >= 0 ==> Validate(Words, CreateTaskRequest(name, daysBefore, description)).None?
  {
    ValidateChecksInOrder(Words, CreateTaskRequest(name, daysBefore, description));
  }

  /** `GetHoldingTasks`: one response entry per stored task, in service order, with its fields copied. */
  method GetHoldingTasks(holdingIdText: string, list: int -> Option<seq<TaskRow>>) returns (w: Writer<seq<TaskResponse>>)
    ensures !Atoi(holdingIdText).ok ==> w == Error(Fresh(), "invalid holding_id", StatusBadRequest)
    ensures Atoi(holdingIdText).ok && list(Atoi(holdingIdText).value).None? ==>
      w == Error(Fresh(), "failed to get holding tasks", StatusInternalServerError)
    ensures Atoi(holdingIdText).ok && list(Atoi(holdingIdText).value).Some? ==>
      var rows := list(Atoi(holdingIdText).value).value;
      && Status(w) == StatusOK && |w.body| == 1 && w.body[0].Json? && |w.body[0].value| == |rows|
      && forall i :: 0 <= i < |rows| ==>
           w.body[0].value[i].id == IntToString(rows[i].id) && w.body[0].value[i].ownerId == IntToString(rows[i].ownerId)
           && w.body[0].value[i].name == rows[i].name && w.body[0].value[i].daysBefore == rows[i].daysBefore
           && w.body[0].value[i].description == rows[i].description
  {
    w := GetTasks(Words, holdingIdText, list);
  }

  /** `CreateHoldingTask`: the new task's holding id is the one in the path. */
  method CreateHoldingTask(holdingIdText: string, body: Option<CreateTaskRequest>, newId: Option<int>)
    returns (w: Writer<TaskResponse>, sent: Option<TaskRow>)
    ensures sent.Some? <==> Atoi(holdingIdText).ok && body.Some? && Validate(Words, body.value).None?
    ensures sent.Some? ==>
      && sent.value.ownerId == Atoi(holdingIdText).value
      && sent.value.name == body.value.name && sent.value.name != ""
      && sent.value.daysBefore == body.value.daysBefore && sent.value.daysBefore >= 0
      && sent.value.description == body.value.description
    ensures Atoi(holdingIdText).ok && body.Some? && body.value.name == "" ==>
      w == Error(Fresh(), "task name is required", StatusBadRequest)
  {
    w, sent := CreateTask(Words, holdingIdText, body, newId);
  }

  /**
   * `UpdateHoldingTask`: id and holding id are kept; supplied name, day count and description
   * overwrite, absent ones are kept; a negative day count or an unknown id saves nothing.
   */
  method UpdateHoldingTask(taskIdText: string, body: Option<UpdateTaskRequest>, find: int -> Option<TaskRow>, saved: bool)
    returns (w: Writer<TaskResponse>, sent: Option<TaskRow>)
    ensures Atoi(taskIdText).ok && body.Some? && find(Atoi(taskIdText).value).None? ==>
      w == Error(Fresh(), "holding task not found", StatusNotFound) && sent.None?
    ensures body.Some? && body.value.daysBefore.Some? && body.value.daysBefore.value < 0 ==> sent.None?
    ensures sent.Some? ==> Atoi(taskIdText).ok && body.Some? && find(Atoi(taskIdText).value).Some?
    ensures sent.Some? ==>
      var existing, req := find(Atoi(taskIdText).value).value, body.value;
      && sent.value.id == existing.id && sent.value.ownerId == existing.ownerId
      && sent.value.name == req.name.GetOr(existing.name)
      && sent.value.daysBefore == req.daysBefore.GetOr(existing.daysBefore)
      && sent.value.description == req.description.GetOr(existing.description)
  {
    w, sent := UpdateTask(Words, taskIdText, body, find, saved);
  }

  /** `DeleteHoldingTask`: the service is asked to delete the parsed id, and success is 204 with no body. */
  method DeleteHoldingTask(taskIdText: string, deleted: bool) returns (w: Writer<()>, sent: Option<int>)
    ensures !Atoi(taskIdText).ok ==> w == Error(Fresh(), "invalid task_id", StatusBadRequest) && sent.None?
    ensures Atoi(taskIdText).ok ==> sent == Some(Atoi(taskIdText).value)
    ensures sent.Some? && deleted ==> Status(w) == StatusNoContent && w.body == []
  {
    w, sent := DeleteTask(Words, taskIdText, deleted);
  }
}
