/**
 * The task dialog of `pages/HoldingEdit.tsx` and of the legacy `pages/TemplateEdit.tsx`: an open
 * flag, the task being edited (if any) and the form's three fields.  The pages differ only in
 * field names and in how the day-count input is read.  Of the edited task only its id is used
 * after opening, so only the id is kept.
 */
module TaskModal {
  import opened Wrappers
  import opened Strings

  datatype TaskFields = TaskFields(name: string, daysBefore: int, description: string)

  const BlankTask := TaskFields("", 0, "")

  /** The store call a save makes: update the edited task, or create one under the page's owner. */
  datatype TaskCall = CreateTask(ownerId: string, fields: TaskFields) | UpdateTask(taskId: string, fields: TaskFields)

  /** The save guard: a name that is not blank after trimming and a positive day count. */
  predicate Savable(f: TaskFields)
  {
    Trim(f.name) != "" && f.daysBefore > 0
  }

  /** Saving is refused exactly for a blank name or a day count of 0 or less. */
  lemma SavableSpec(f: TaskFields)
    ensures Savable(f) <==> !IsBlank(f.name) && f.daysBefore >= 1
  {
    TrimEmptyIffBlank(f.name);
  }

  class TaskDialog {
    var isOpen: bool
    var editingTaskId: Option<string>
    var fields: TaskFields

    constructor ()
      ensures !isOpen && editingTaskId == None && fields == BlankTask
    {
      isOpen := false;
      editingTaskId := None;
      fields := BlankTask;
    }

    /** `openTaskModal(task)`: edit `taskId`, starting from its fields. */
    method OpenFor(taskId: string, f: TaskFields)
      modifies this
      ensures isOpen && editingTaskId == Some(taskId) && fields == f
    {
      editingTaskId := Some(taskId);
      fields := f;
      isOpen := true;
    }

    /** `openTaskModal()`: a new task, starting blank. */
    method OpenBlank()
      modifies this
      ensures isOpen && editingTaskId == None && fields == BlankTask
    {
      editingTaskId := None;
      fields := BlankTask;
      isOpen := true;
    }

    /** `closeTaskModal`: closes, forgets the edited task and blanks the form. */
    method Close()
      modifies this
      ensures !isOpen && editingTaskId == None && fields == BlankTask
    {
      isOpen := false;
      editingTaskId := None;
      fields := BlankTask;
    }

    /** The day-count input, already read as a number. */
    method SetDaysBefore(n: int)
      modifies this
      ensures fields == old(fields).(daysBefore := n)
      ensures isOpen == old(isOpen) && editingTaskId == old(editingTaskId)
    {
      fields := fields.(daysBefore := n);
    }

    /**
     * `handleSaveTask`: with a blank name or a day count of 0 or less nothing is sent and the
     * dialog stays as it is; otherwise the edited task is updated, or a task is created under
     * `ownerId`, with the form's fields, and the dialog closes blank.
     */
    method Save(ownerId: string) returns (call: Option<TaskCall>)
      modifies this
      ensures call.Some? <==> Savable(old(fields))
      ensures call.None? ==> isOpen == old(isOpen) && editingTaskId == old(editingTaskId) && fields == old(fields)
      ensures call.Some? && old(editingTaskId).Some? ==> call.value == UpdateTask(old(editingTaskId).value, old(fields))
      ensures call.Some? && old(editingTaskId).None? ==> call.value == CreateTask(ownerId, old(fields))
      ensures call.Some? ==> !isOpen && editingTaskId == None && fields == BlankTask
    {
      if Trim(fields.name) == "" || fields.daysBefore <= 0 {
        return None;
      }
      if editingTaskId.Some? {
        call := Some(UpdateTask(editingTaskId.value, fields));
      } else {
        call := Some(CreateTask(ownerId, fields));
      }
      Close();
    }
  }
}
