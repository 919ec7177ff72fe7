/**
 * `pages/HoldingEdit.tsx`: editing one holding's information in a dialog, and adding, editing
 * and ordering its tasks in a second dialog.  The page shows nothing of this without a holding
 * id in its route, so `holdingId` is non-empty here.
 */
module HoldingEdit {
  import opened Wrappers
  import opened Strings
  import opened Decimal
  import opened Dates
  import opened Entities
  import opened TaskOrder
  import opened TaskModal
  import EntryForm
  import TaskHandler
  import HoldingTaskHandler

  /** The information dialog's fields; `date` is `None` for JavaScript's invalid date. */
  datatype InfoForm = InfoForm(name: string, date: Option<Date>, channelId: string, mention: string)

  const NameAlert := "開催名を入力してください"
  const ChannelAlert := "通知先チャンネルを選択してください"
  const MentionAlert := "メンション先を入力してください"

  /** The fields of a stored holding, as the dialog shows them. */
  function InfoOf(h: Holding): InfoForm
  {
    InfoForm(h.name, ParseDate(h.date), h.channelId, h.mention)
  }

  /** The alert of the first failing check of `handleUpdateHoldingInfo`, or `None`. */
  function InfoProblem(f: InfoForm): Option<string>
  {
    if Trim(f.name) == "" then Some(NameAlert)
    else if f.channelId == "" then Some(ChannelAlert)
    else if Trim(f.mention) == "" then Some(MentionAlert)
    else None
  }

  /** The checks run in order, blank name, then empty channel, then blank mention, and the first failure is the one reported. */
  lemma InfoChecksInOrder(f: InfoForm)
    ensures InfoProblem(f).None? <==> !IsBlank(f.name) && f.channelId != "" && !IsBlank(f.mention)
    ensures IsBlank(f.name) ==> InfoProblem(f) == Some(NameAlert)
    ensures !IsBlank(f.name) && f.channelId == "" ==> InfoProblem(f) == Some(ChannelAlert)
    ensures !IsBlank(f.name) && f.channelId != "" && IsBlank(f.mention) ==> InfoProblem(f) == Some(MentionAlert)
  {
    TrimEmptyIffBlank(f.name);
    TrimEmptyIffBlank(f.mention);
  }

  /**
   * The update `handleUpdateHoldingInfo` sends for the loaded holding `h`: the dialog's fields
   * with the date as `YYYY-MM-DD` and the holding's own event (`''` when it has none); nothing
   * when the date cannot be written, since `toISOString` then throws.
   */
  function InfoUpdate(h: Holding, f: InfoForm): Option<EntryForm.Payload>
  {
    if f.date.None? then None
    else Some(EntryForm.Payload(f.name, h.eventId.GetOr(""), FormatDate(f.date.value), f.channelId, f.mention))
  }

  /**
   * Saving the dialog unchanged sends back the holding's stored fields, date string included,
   * and keeps it under its own event; a holding with no event is sent with the empty event id.
   */
  lemma UnchangedInfoSendsStoredFields(h: Holding)
    requires ParseDate(h.date).Some?
    ensures InfoUpdate(h, InfoOf(h)) == Some(EntryForm.Payload(h.name, h.eventId.GetOr(""), h.date, h.channelId, h.mention))
    ensures h.eventId.None? ==> InfoUpdate(h, InfoOf(h)).value.ownerId == ""
  {
    FormatParseDate(h.date);
  }

  /** The information dialog of the page for `holdingId`. */
  class InfoDialog {
    const holdingId: string
    var form: InfoForm
    var isOpen: bool

    constructor (holdingId: string, now: Date)
      requires holdingId != ""
      ensures this.holdingId == holdingId && form == InfoForm("", Some(now), "", "") && !isOpen
    {
      this.holdingId := holdingId;
      form := InfoForm("", Some(now), "", "");
      isOpen := false;
    }

    /** The `currentHolding` effect: a loaded holding's fields fill the dialog. */
    method Load(current: Option<HoldingWithTasks>)
      modifies this
      ensures form == (if current.Some? then InfoOf(current.value.holding) else old(form))
      ensures isOpen == old(isOpen)
    {
      if current.Some? {
        form := InfoOf(current.value.holding);
      }
    }

    /** `openEditInfoModal`: only with a loaded holding, refill the dialog from it and open it. */
    method Open(current: Option<HoldingWithTasks>)
      modifies this
      ensures current.Some? ==> form == InfoOf(current.value.holding) && isOpen
      ensures current.None? ==> form == old(form) && isOpen == old(isOpen)
    {
      if current.Some? {
        form := InfoOf(current.value.holding);
        isOpen := true;
      }
    }

    /**
     * `handleUpdateHoldingInfo`: a failing check stops the save with the dialog unchanged;
     * otherwise, with a loaded holding, the update for this page's holding is sent and the
     * dialog closes, and with none nothing is sent but the dialog still closes.  An unwritable
     * date stops the save before anything is sent.
     */
    method Save(current: Option<HoldingWithTasks>) returns (call: Option<(string, EntryForm.Payload)>)
      modifies this
      ensures form == old(form)
      ensures InfoProblem(form).Some? ==> call.None? && isOpen == old(isOpen)
      ensures InfoProblem(form).None? && current.Some? && form.date.None? ==> call.None? && isOpen == old(isOpen)
      ensures InfoProblem(form).None? && current.Some? && form.date.Some? ==>
        call == Some((holdingId, InfoUpdate(current.value.holding, form).value)) && !isOpen
      ensures InfoProblem(form).None? && current.None? ==> call.None? && !isOpen
    {
      if Trim(form.name) == "" {
        return None;
      }
      if form.channelId == "" {
        return None;
      }
      if Trim(form.mention) == "" {
        return None;
      }
      call := None;
      if current.Some? {
        var update := InfoUpdate(current.value.holding, form);
        if update.None? {
          return None;
        }
        call := Some((holdingId, update.value));
      }
      isOpen := false;
    }
  }

  /** `openTaskModal(task?)`: edit a holding task, starting from its fields, or start a blank one. */
  method OpenTaskModal(dialog: TaskDialog, task: Option<HoldingTask>)
    modifies dialog
    ensures dialog.isOpen
    ensures task.Some? ==> dialog.editingTaskId == Some(task.value.id)
    ensures task.Some? ==> dialog.fields == TaskFields(task.value.name, task.value.daysBefore, task.value.description)
    ensures task.None? ==> dialog.editingTaskId == None && dialog.fields == BlankTask
  {
    if task.Some? {
      dialog.OpenFor(task.value.id, TaskFields(task.value.name, task.value.daysBefore, task.value.description));
    } else {
      dialog.OpenBlank();
    }
  }

  /** The day-count input: `Number(value) || 0`, so text that is not a number becomes 0. */
  method EnterDaysBefore(dialog: TaskDialog, text: string)
    modifies dialog
    ensures dialog.fields == old(dialog.fields).(daysBefore := NumberOrZero(text))
    ensures dialog.isOpen == old(dialog.isOpen) && dialog.editingTaskId == old(dialog.editingTaskId)
  {
    dialog.SetDaysBefore(NumberOrZero(text));
  }

  /** `handleSaveTask` on this page: a new task is created under the page's holding. */
  method SaveTask(dialog: TaskDialog, holdingId: string) returns (call: Option<TaskCall>)
    modifies dialog
    ensures call.Some? <==> !IsBlank(old(dialog.fields).name) && old(dialog.fields).daysBefore >= 1
    ensures call.Some? && old(dialog.editingTaskId).None? ==> call.value == CreateTask(holdingId, old(dialog.fields))
    ensures call.Some? && old(dialog.editingTaskId).Some? ==> call.value == UpdateTask(old(dialog.editingTaskId).value, old(dialog.fields))
    ensures call.Some? ==> !dialog.isOpen && dialog.editingTaskId == None && dialog.fields == BlankTask
    ensures call.None? ==> dialog.fields == old(dialog.fields) && dialog.isOpen == old(dialog.isOpen)
  {
    SavableSpec(dialog.fields);
    call := dialog.Save(holdingId);
  }

  /** The task list, largest day count first, on a copy: the loaded holding's tasks are not reordered. */
  function SortedTasks(current: Option<HoldingWithTasks>): seq<HoldingTask>
  {
    if current.Some? then SortedByDaysDesc(HoldingTaskDaysBefore, current.value.tasks) else []
  }

  /** The shown list holds the same tasks as the holding, ordered by day count, largest first, equal counts in stored order. */
  lemma SortedTasksSpec(h: HoldingWithTasks)
    ensures var r := SortedTasks(Some(h));
      multiset(r) == multiset(h.tasks) && forall i, j :: 0 <= i < j < |r| ==> r[i].daysBefore >= r[j].daysBefore
    ensures forall d :: SameDays(HoldingTaskDaysBefore, SortedTasks(Some(h)), d) == SameDays(HoldingTaskDaysBefore, h.tasks, d)
  {
    SortedByDaysDescSpec(HoldingTaskDaysBefore, h.tasks);
  }

  /**
   * The page and the server disagree about a day count of 0: the dialog refuses to save such a
   * task, while the server's validation of a new holding task accepts it.
   */
  lemma ZeroDaysRefusedHereAcceptedByServer(name: string, description: string)
    requires !IsBlank(name)
    ensures !Savable(TaskFields(name, 0, description))
    ensures TaskHandler.Validate(HoldingTaskHandler.Words, TaskHandler.CreateTaskRequest(name, 0, description)).None?
  {
    assert name != "";
  }
}
