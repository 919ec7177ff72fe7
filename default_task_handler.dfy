/**
 * `handler/default_task.go`: the default tasks of an event, at `/events/{eventId}/default-tasks`
 * and `/default-tasks/{taskId}`.  The control flow is `TaskHandler`'s; this module fixes the
 * messages and states what each endpoint promises.
 */
module DefaultTaskHandler {
  import opened Wrappers
  import opened Decimal
  import opened HttpWriter
  import opened TaskHandler

  const Words: Wording := Wording(
    "task_name is required", "days_before must be greater than or equal to 0", "invalid event_id",
    "failed to get default tasks", "failed to create default task", "default task not found",
    "failed to update default task", "failed to delete default task")

  /** An empty name is reported first, then a negative day count; a day count of 0 passes. */
  lemma ValidateDefaultTask(name: string, daysBefore: int, description: string)
    ensures name == "" ==> Validate(Words, CreateTaskRequest(name, daysBefore, description)) == Some("task_name is required")
    ensures name != "" && daysBefore < 0 ==>
      Validate(Words, CreateTaskRequest(name, daysBefore, description)) == Some("days_before must be greater than or equal to 0")
    ensures name != "" && daysBefore >= 0 ==> Validate(Words, CreateTaskRequest(name, daysBefore, description)).None?
  {
    ValidateChecksInOrder(Words, CreateTaskRequest(name, daysBefore, description));
  }

  /** `GetDefaultTasks`: one response entry per stored task of the event, in service order. */
  method GetDefaultTasks(eventIdText: string, list: int -> Option<seq<TaskRow>>) returns (w: Writer<seq<TaskResponse>>)
    ensures !Atoi(eventIdText).ok ==> w == Error(Fresh(), "invalid event_id", StatusBadRequest)
    ensures Atoi(eventIdText).ok && list(Atoi(eventIdText).value).None? ==>
      w == Error(Fresh(), "failed to get default tasks", StatusInternalServerError)
    ensures Atoi(eventIdText).ok && list(Atoi(eventIdText).value).Some? ==>
      var rows := list(Atoi(eventIdText).value).value;
      w == Reply(Fresh(), StatusOK, seq(|rows|, i requires 0 <= i < |rows| => ToResponse(rows[i])))
  {
    w := GetTasks(Words, eventIdText, list);
    if Atoi(eventIdText).ok && list(Atoi(eventIdText).value).Some? {
      var rows := list(Atoi(eventIdText).value).value;
      assert w.body[0].value == seq(|rows|, i requires 0 <= i < |rows| => ToResponse(rows[i]));
    }
  }

  /** `CreateDefaultTask`: the saved task belongs to the event of the path, whatever the body says. */
  method CreateDefaultTask(eventIdText: string, body: Option<CreateTaskRequest>, newId: Option<int>)
    returns (w: Writer<TaskResponse>, sent: Option<TaskRow>)
    ensures sent.Some? <==> Atoi(eventIdText).ok && body.Some? && Validate(Words, body.value).None?
    ensures sent.Some? ==> sent.value.ownerId == Atoi(eventIdText).value && sent.value.daysBefore >= 0
    ensures sent.Some? && newId.Some? ==>
      Status(w) == StatusCreated && w.body == [Json(ToResponse(sent.value.(id := newId.value)))]
  {
    w, sent := CreateTask(Words, eventIdText, body, newId);
  }

  /**
   * `UpdateDefaultTask`: an unknown id is 404 and a negative day count 400, before anything is
   * saved; otherwise the stored task with each supplied field overwritten is saved, and answered
   * with 200 or 500.
   */
  method UpdateDefaultTask(taskIdText: string, body: Option<UpdateTaskRequest>, find: int -> Option<TaskRow>, saved: bool)
    returns (w: Writer<TaskResponse>, sent: Option<TaskRow>)
    ensures Atoi(taskIdText).ok && body.Some? && find(Atoi(taskIdText).value).None? ==>
      Status(w) == StatusNotFound && sent.None?
    ensures body.Some? && body.value.daysBefore.Some? && body.value.daysBefore.value < 0 ==>
      sent.None? && (Atoi(taskIdText).ok && find(Atoi(taskIdText).value).Some? ==> Status(w) == StatusBadRequest)
    ensures sent.Some? ==> Atoi(taskIdText).ok && body.Some? && find(Atoi(taskIdText).value).Some?
    ensures sent.Some? ==>
      var existing, req := find(Atoi(taskIdText).value).value, body.value;
      && sent.value.id == existing.id && sent.value.ownerId == existing.ownerId
      && sent.value.name == req.name.GetOr(existing.name)
      && sent.value.daysBefore == req.daysBefore.GetOr(existing.daysBefore)
      && sent.value.description == req.description.GetOr(existing.description)
    ensures sent.Some? && !saved ==> w == Error(Fresh(), "failed to update default task", StatusInternalServerError)
    ensures sent.Some? && saved ==> w == Reply(Fresh(), StatusOK, ToResponse(sent.value))
  {
    w, sent := UpdateTask(Words, taskIdText, body, find, saved);
  }

  /** `DeleteDefaultTask`: the service is asked to delete the parsed id, and success is 204 with no body. */
  method DeleteDefaultTask(taskIdText: string, deleted: bool) returns (w: Writer<()>, sent: Option<int>)
    ensures sent.Some? <==> Atoi(taskIdText).ok
    ensures sent.Some? && deleted ==> Status(w) == StatusNoContent && w.body == []
    ensures sent.Some? && !deleted ==> Status(w) == StatusInternalServerError
  {
    w, sent := DeleteTask(Words, taskIdText, deleted);
  }
}
