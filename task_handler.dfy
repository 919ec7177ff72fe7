/**
 * The HTTP handlers shared by the two task resources of the Go backend: default tasks of an
 * event (`handler/default_task.go`) and tasks of a holding (`handler/holding_task.go`).  Both
 * files have the same control flow over a task row owned by a parent id; they differ only in
 * their messages, which a `Wording` value carries.  Service calls are parameters: the row the
 * service finds for an id, the rows it lists, the id it assigns, whether a write succeeds.
 */
module TaskHandler {
  import opened Wrappers
  import opened Decimal
  import opened HttpWriter

  /** A stored task (`models.DefaultTask`, or `models.Task` without its reminder flag). */
  datatype TaskRow = TaskRow(id: int, ownerId: int, name: string, daysBefore: int, description: string)

  datatype CreateTaskRequest = CreateTaskRequest(name: string, daysBefore: int, description: string)

  /** A PATCH body: a nil pointer is an absent field. There is no owner id to supply. */
  datatype UpdateTaskRequest = UpdateTaskRequest(name: Option<string>, daysBefore: Option<int>, description: Option<string>)

  /** The JSON answer: ids as decimal strings. */
  datatype TaskResponse = TaskResponse(id: string, ownerId: string, name: string, daysBefore: int, description: string)

  datatype Wording = Wording(
    nameRequired: string, daysBeforeNegative: string, invalidOwnerId: string,
    listFailed: string, createFailed: string, notFound: string, updateFailed: string, deleteFailed: string)

  const InvalidRequestBody: string := "invalid request body"
  const InvalidTaskId: string := "invalid task_id"
  /** The PATCH check's message, the same in both files. */
  const PatchDaysBeforeNegative: string := "days_before must be greater than or equal to 0"

  /** `Create...Request.Validate`: the first failing check, or `None`. */
  function Validate(wd: Wording, req: CreateTaskRequest): Option<string>
  {
    if req.name == "" then Some(wd.nameRequired)
    else if req.daysBefore < 0 then Some(wd.daysBeforeNegative)
    else None
  }

  /** An empty name is reported before a negative day count; zero days is accepted. */
  lemma ValidateChecksInOrder(wd: Wording, req: CreateTaskRequest)
    ensures Validate(wd, req).None? <==> req.name != "" && req.daysBefore >= 0
    ensures req.name == "" ==> Validate(wd, req) == Some(wd.nameRequired)
    ensures req.name != "" && req.daysBefore < 0 ==> Validate(wd, req) == Some(wd.daysBeforeNegative)
  {
  }

  function ToResponse(t: TaskRow): TaskResponse
  {
    TaskResponse(IntToString(t.id), IntToString(t.ownerId), t.name, t.daysBefore, t.description)
  }

  /** The response gives back every field of the row; its ids read back as the row's ids. */
  lemma ResponseEchoesRow(t: TaskRow)
    requires MinInt64 <= t.id <= MaxInt64 && MinInt64 <= t.ownerId <= MaxInt64
    ensures Atoi(ToResponse(t).id) == Parsed(t.id, true)
    ensures Atoi(ToResponse(t).ownerId) == Parsed(t.ownerId, true)
    ensures ToResponse(t).name == t.name && ToResponse(t).daysBefore == t.daysBefore
    ensures ToResponse(t).description == t.description
  {
    AtoiItoa(t.id);
    AtoiItoa(t.ownerId);
  }

  /**
   * The PATCH merge: the row to save, or `None` when the request is refused.  Id and owner id
   * always come from the stored row.
   */
  function Merged(existing: TaskRow, req: UpdateTaskRequest): Option<TaskRow>
  {
    if req.daysBefore.Some? && req.daysBefore.value < 0 then None
    else Some(TaskRow(existing.id, existing.ownerId, req.name.GetOr(existing.name),
      req.daysBefore.GetOr(existing.daysBefore), req.description.GetOr(existing.description)))
  }

  /**
   * The merge is refused exactly for a negative day count. Otherwise it keeps id and owner,
   * overwrites each supplied field and keeps each absent one.
   */
  lemma MergedOverwritesOnlySupplied(existing: TaskRow, req: UpdateTaskRequest)
    ensures Merged(existing, req).None? <==> req.daysBefore.Some? && req.daysBefore.value < 0
    ensures Merged(existing, req).Some? ==>
      var r := Merged(existing, req).value;
      && r.id == existing.id && r.ownerId == existing.ownerId
      && (req.name.Some? ==> r.name == req.name.value)
      && (req.name.None? ==> r.name == existing.name)
      && (req.daysBefore.Some? ==> r.daysBefore == req.daysBefore.value)
      && (req.daysBefore.None? ==> r.daysBefore == existing.daysBefore)
      && (req.description.Some? ==> r.description == req.description.value)
      && (req.description.None? ==> r.description == existing.description)
  {
  }

  /** Sending the same PATCH twice saves the same row as sending it once; an empty PATCH saves the row unchanged. */
  lemma MergedIdempotent(existing: TaskRow, req: UpdateTaskRequest)
    ensures Merged(existing, req).Some? ==> Merged(Merged(existing, req).value, req) == Merged(existing, req)
    ensures Merged(existing, UpdateTaskRequest(None, None, None)) == Some(existing)
  {
  }

  /** The list handler's loop: `response[i]` is the conversion of `rows[i]`. */
  method BuildResponses(rows: seq<TaskRow>) returns (response: seq<TaskResponse>)
    ensures |response| == |rows|
    ensures forall i :: 0 <= i < |rows| ==> response[i] == ToResponse(rows[i])
  {
    response := [];
    for i := 0 to |rows|
      invariant |response| == i
      invariant forall j :: 0 <= j < i ==> response[j] == ToResponse(rows[j])
    {
      var converted := ToResponse(rows[i]);
      response := response + [converted];
    }
  }

  /**
   * `GET .../{ownerId}/...`: `list(ownerId)` is the service's answer for a parsed owner id
   * (`None` for a failure).
   */
  method GetTasks(wd: Wording, ownerIdText: string, list: int -> Option<seq<TaskRow>>)
    returns (w: Writer<seq<TaskResponse>>)
    ensures !Atoi(ownerIdText).ok ==> w == Error(Fresh(), wd.invalidOwnerId, StatusBadRequest)
    ensures Atoi(ownerIdText).ok && list(Atoi(ownerIdText).value).None? ==>
      w == Error(Fresh(), wd.listFailed, StatusInternalServerError)
    ensures Atoi(ownerIdText).ok && list(Atoi(ownerIdText).value).Some? ==>
      var rows := list(Atoi(ownerIdText).value).value;
      && w.header == Some(StatusOK) && |w.body| == 1 && w.body[0].Json?
      && |w.body[0].value| == |rows|
      && forall i :: 0 <= i < |rows| ==> w.body[0].value[i] == ToResponse(rows[i])
  {
    var ownerId := Atoi(ownerIdText);
    if !ownerId.ok {
      return Error(Fresh(), wd.invalidOwnerId, StatusBadRequest);
    }
    var tasks := list(ownerId.value);
    if tasks.None? {
      return Error(Fresh(), wd.listFailed, StatusInternalServerError);
    }
    var response := BuildResponses(tasks.value);
    w := Reply(Fresh(), StatusOK, response);
  }

  /**
   * `POST .../{ownerId}/...`: `body` is the decoded request (`None` when it does not decode),
   * `newId` the id the service gives the new row (`None` for a failure).  Returns what the
   * client receives and the row handed to the service, if any.
   */
  method CreateTask(wd: Wording, ownerIdText: string, body: Option<CreateTaskRequest>, newId: Option<int>)
    returns (w: Writer<TaskResponse>, sent: Option<TaskRow>)
    ensures !Atoi(ownerIdText).ok ==> w == Error(Fresh(), wd.invalidOwnerId, StatusBadRequest) && sent.None?
    ensures Atoi(ownerIdText).ok && body.None? ==> w == Error(Fresh(), InvalidRequestBody, StatusBadRequest) && sent.None?
    ensures Atoi(ownerIdText).ok && body.Some? && Validate(wd, body.value).Some? ==>
      w == Error(Fresh(), Validate(wd, body.value).value, StatusBadRequest) && sent.None?
    ensures Atoi(ownerIdText).ok && body.Some? && Validate(wd, body.value).None? ==>
      sent == Some(TaskRow(0, Atoi(ownerIdText).value, body.value.name, body.value.daysBefore, body.value.description))
    ensures sent.Some? && newId.None? ==> w == Error(Fresh(), wd.createFailed, StatusInternalServerError)
    ensures sent.Some? && newId.Some? ==> w == Reply(Fresh(), StatusCreated, ToResponse(sent.value.(id := newId.value)))
  {
    var ownerId := Atoi(ownerIdText);
    if !ownerId.ok {
      return Error(Fresh(), wd.invalidOwnerId, StatusBadRequest), None;
    }
    if body.None? {
      return Error(Fresh(), InvalidRequestBody, StatusBadRequest), None;
    }
    var req := body.value;
    var invalid := Validate(wd, req);
    if invalid.Some? {
      return Error(Fresh(), invalid.value, StatusBadRequest), None;
    }
    var task := TaskRow(0, ownerId.value, req.name, req.daysBefore, req.description);
    sent := Some(task);
    if newId.None? {
      return Error(Fresh(), wd.createFailed, StatusInternalServerError), sent;
    }
    task := task.(id := newId.value);
    w := Reply(Fresh(), StatusCreated, ToResponse(task));
  }

  /**
   * `PATCH .../{taskId}`: `find(id)` is the service's row for a parsed id, `saved` whether the
   * update succeeds.  The stored row is copied and the supplied fields overwrite it one by one.
   */
  method UpdateTask(wd: Wording, taskIdText: string, body: Option<UpdateTaskRequest>, find: int -> Option<TaskRow>, saved: bool)
    returns (w: Writer<TaskResponse>, sent: Option<TaskRow>)
    ensures !Atoi(taskIdText).ok ==> w == Error(Fresh(), InvalidTaskId, StatusBadRequest) && sent.None?
    ensures Atoi(taskIdText).ok && body.None? ==> w == Error(Fresh(), InvalidRequestBody, StatusBadRequest) && sent.None?
    ensures Atoi(taskIdText).ok && body.Some? && find(Atoi(taskIdText).value).None? ==>
      w == Error(Fresh(), wd.notFound, StatusNotFound) && sent.None?
    ensures Atoi(taskIdText).ok && body.Some? && find(Atoi(taskIdText).value).Some? ==>
      sent == Merged(find(Atoi(taskIdText).value).value, body.value)
    ensures Atoi(taskIdText).ok && body.Some? && find(Atoi(taskIdText).value).Some? && sent.None? ==>
      w == Error(Fresh(), PatchDaysBeforeNegative, StatusBadRequest)
    ensures sent.Some? && !saved ==> w == Error(Fresh(), wd.updateFailed, StatusInternalServerError)
    ensures sent.Some? && saved ==> w == Reply(Fresh(), StatusOK, ToResponse(sent.value))
  {
    var taskId := Atoi(taskIdText);
    if !taskId.ok {
      return Error(Fresh(), InvalidTaskId, StatusBadRequest), None;
    }
    if body.None? {
      return Error(Fresh(), InvalidRequestBody, StatusBadRequest), None;
    }
    var req := body.value;
    var existing := find(taskId.value);
    if existing.None? {
      return Error(Fresh(), wd.notFound, StatusNotFound), None;
    }
    var updated := existing.value;
    if req.name.Some? {
      updated := updated.(name := req.name.value);
    }
    if req.daysBefore.Some? {
      if req.daysBefore.value < 0 {
        return Error(Fresh(), PatchDaysBeforeNegative, StatusBadRequest), None;
      }
      updated := updated.(daysBefore := req.daysBefore.value);
    }
    if req.description.Some? {
      updated := updated.(description := req.description.value);
    }
    sent := Some(updated);
    if !saved {
      return Error(Fresh(), wd.updateFailed, StatusInternalServerError), sent;
    }
    w := Reply(Fresh(), StatusOK, ToResponse(updated));
  }

  /** `DELETE .../{taskId}`: the id handed to the service, if the path parses. */
  method DeleteTask(wd: Wording, taskIdText: string, deleted: bool) returns (w: Writer<()>, sent: Option<int>)
    ensures !Atoi(taskIdText).ok ==> w == Error(Fresh(), InvalidTaskId, StatusBadRequest) && sent.None?
    ensures Atoi(taskIdText).ok ==> sent == Some(Atoi(taskIdText).value)
    ensures Atoi(taskIdText).ok && !deleted ==> w == Error(Fresh(), wd.deleteFailed, StatusInternalServerError)
    ensures Atoi(taskIdText).ok && deleted ==> w == WriteHeader(Fresh(), StatusNoContent) && w.body == []
  {
    var taskId := Atoi(taskIdText);
    if !taskId.ok {
      return Error(Fresh(), InvalidTaskId, StatusBadRequest), None;
    }
    sent := Some(taskId.value);
    if !deleted {
      return Error(Fresh(), wd.deleteFailed, StatusInternalServerError), sent;
    }
    w := WriteHeader(Fresh(), StatusNoContent);
  }
}
