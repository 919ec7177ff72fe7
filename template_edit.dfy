/**
 * `pages/TemplateEdit.tsx`, the older schema's editor of a task template: renaming the template
 * in a dialog, and adding, editing and ordering its tasks with the same task dialog as the
 * holding editor.  The page shows nothing of this without a template id in its route.
 */
module TemplateEdit {
  import opened Wrappers
  import opened Strings
  import opened Decimal
  import opened TaskOrder
  import opened TaskModal

  /** A task of a template in the older schema. */
  datatype TemplateTask = TemplateTask(taskId: string, templateId: string, taskName: string, daysBefore: int, description: string)

  datatype Template = Template(templateId: string, templateName: string, tasks: seq<TemplateTask>)

  function TemplateTaskDaysBefore(t: TemplateTask): int
  {
    t.daysBefore
  }

  /** The rename dialog of the page for `templateId`. */
  class NameDialog {
    const templateId: string
    var templateName: string
    var isOpen: bool

    constructor (templateId: string)
      requires templateId != ""
      ensures this.templateId == templateId && templateName == "" && !isOpen
    {
      this.templateId := templateId;
      templateName := "";
      isOpen := false;
    }

    /** The `currentTemplate` effect: a loaded template's name fills the dialog. */
    method Load(current: Option<Template>)
      modifies this
      ensures templateName == (if current.Some? then current.value.templateName else old(templateName))
      ensures isOpen == old(isOpen)
    {
      if current.Some? {
        templateName := current.value.templateName;
      }
    }

    /**
     * `handleUpdateTemplateName`: a name that is blank after trimming is ignored, with the dialog
     * left open; any other name is sent, untrimmed, for this page's template and the dialog closes.
     */
    method Save() returns (call: Option<(string, string)>)
      modifies this
      ensures templateName == old(templateName)
      ensures call.Some? <==> !IsBlank(templateName)
      ensures call.Some? ==> call.value == (templateId, templateName) && !isOpen
      ensures call.None? ==> isOpen == old(isOpen)
    {
      TrimEmptyIffBlank(templateName);
      if Trim(templateName) == "" {
        return None;
      }
      call := Some((templateId, templateName));
      isOpen := false;
    }
  }

  /** `openTaskModal(task?)`: edit a template task, starting from its fields, or start a blank one. */
  method OpenTaskModal(dialog: TaskDialog, task: Option<TemplateTask>)
    modifies dialog
    ensures dialog.isOpen
    ensures task.Some? ==> dialog.editingTaskId == Some(task.value.taskId)
    ensures task.Some? ==> dialog.fields == TaskFields(task.value.taskName, task.value.daysBefore, task.value.description)
    ensures task.None? ==> dialog.editingTaskId == None && dialog.fields == BlankTask
  {
    if task.Some? {
      dialog.OpenFor(task.value.taskId, TaskFields(task.value.taskName, task.value.daysBefore, task.value.description));
    } else {
      dialog.OpenBlank();
    }
  }

  /** The day-count input: `parseInt(value, 10) || 0`, so text that does not start with a number becomes 0. */
  method EnterDaysBefore(dialog: TaskDialog, text: string)
    modifies dialog
    ensures dialog.fields == old(dialog.fields).(daysBefore := ParseIntOrZero(text))
    ensures dialog.isOpen == old(dialog.isOpen) && dialog.editingTaskId == old(dialog.editingTaskId)
  {
    dialog.SetDaysBefore(ParseIntOrZero(text));
  }

  /** `handleSaveTask` on this page: a new task is created under the route's template. */
  method SaveTask(dialog: TaskDialog, templateId: string) returns (call: Option<TaskCall>)
    modifies dialog
    ensures call.Some? <==> !IsBlank(old(dialog.fields).name) && old(dialog.fields).daysBefore >= 1
    ensures call.Some? && old(dialog.editingTaskId).None? ==> call.value == CreateTask(templateId, old(dialog.fields))
    ensures call.Some? && old(dialog.editingTaskId).Some? ==> call.value == UpdateTask(old(dialog.editingTaskId).value, old(dialog.fields))
    ensures call.Some? ==> !dialog.isOpen && dialog.editingTaskId == None && dialog.fields == BlankTask
    ensures call.None? ==> dialog.fields == old(dialog.fields) && dialog.isOpen == old(dialog.isOpen)
  {
    SavableSpec(dialog.fields);
    call := dialog.Save(templateId);
  }

  /** The task list, largest day count first, on a copy. */
  function SortedTasks(current: Option<Template>): seq<TemplateTask>
  {
    if current.Some? then SortedByDaysDesc(TemplateTaskDaysBefore, current.value.tasks) else []
  }

  /** The shown list holds the same tasks as the template, ordered by day count, largest first, equal counts in stored order. */
  lemma SortedTasksSpec(t: Template)
    ensures var r := SortedTasks(Some(t));
      multiset(r) == multiset(t.tasks) && forall i, j :: 0 <= i < j < |r| ==> r[i].daysBefore >= r[j].daysBefore
    ensures forall d :: SameDays(TemplateTaskDaysBefore, SortedTasks(Some(t)), d) == SameDays(TemplateTaskDaysBefore, t.tasks, d)
  {
    SortedByDaysDescSpec(TemplateTaskDaysBefore, t.tasks);
  }

  /**
   * The two pages read the day-count field differently: `parseInt` keeps the leading number of
   * "3 days" while `Number` rejects the whole text, so the same text is 3 here and 0 on the
   * holding editor. The text is illustrative of the readers themselves: an `<input
   * type="number">` clears such a value before either reader sees it, and on the plain numerals
   * it does pass on the two readers agree (`Decimal.ReadersInvertString`).
   */
  lemma DayInputReadersDiffer()
    ensures ParseIntOrZero("3 days") == 3
    ensures NumberOrZero("3 days") == 0
  {
    assert !IsJsWhitespace('3') && !IsJsWhitespace('s');
    assert TrimStart("3 days") == "3 days";
    assert Trim("3 days") == "3 days";
    assert !IsSignedNumeral("3 days") by { assert !IsDigit(' '); }
    assert LeadingDigits("3 days") == 1 by { assert IsDigit('3') && !IsDigit(' '); }
    assert "3 days"[..1] == "3";
    assert DigitsValue("3") == 3 by { assert "3"[..0] == []; }
  }
}
