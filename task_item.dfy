/** One row of the task list: the check box, the text, and the inline
    editor with its Save and Cancel buttons. */
module TaskItem {

  import opened Types
  import opened Strings

  /** The call-back `onUpdate(id, text)`. */
  datatype Update = Update(id: string, text: string)

  /** What Save sends for a task and the text in the editor: an update is
      sent exactly when the editor holds something besides whitespace and
      differs from the task's text as typed (untrimmed); the update carries
      the trimmed text, which is never empty. */
  function UpdateToSend(task: Task, editText: string): (r: Option<Update>)
    ensures r.Some? <==> !AllWhitespace(editText) && editText != task.text
    ensures r.Some? ==> r.value.id == task.id && r.value.text == Trim(editText)
    ensures r.Some? ==> r.value.text != [] && Trim(r.value.text) == r.value.text
  {
    match TrimmedIfNotBlank(editText)
    case Some(trimmed) => if editText != task.text then Some(Update(task.id, trimmed)) else None
    case None => None
  }

  /** The comparison is made before trimming: padding the current text with
      whitespace still sends an update, and that update carries the text
      the task already has. */
  lemma PaddedEditResendsText(task: Task, pad: string)
    requires pad != [] && AllWhitespace(pad)
    requires task.text != [] && Trim(task.text) == task.text
    ensures UpdateToSend(task, pad + task.text) == Some(Update(task.id, task.text))
  {
    var edited := pad + task.text;
    TrimPadded(pad, task.text);
    assert edited != task.text by {
      assert |edited| > |task.text|;
    }
    assert !AllWhitespace(edited) by {
      TrimEmptyIffBlank(edited);
    }
  }

  class TaskItemState {
    /** The `task` prop. */
    var task: Task
    var isEditing: bool
    var editText: string

    /** The editor starts closed, holding the task's text. */
    constructor (task: Task)
      ensures this.task == task && !isEditing && editText == task.text
    {
      this.task := task;
      isEditing := false;
      editText := task.text;
    }

    /** The Edit button. */
    method StartEditing()
      modifies this
      ensures isEditing
      ensures task == old(task) && editText == old(editText)
    {
      isEditing := true;
    }

    /** Typing in the editor. */
    method ChangeText(text: string)
      modifies this
      ensures editText == text
      ensures task == old(task) && isEditing == old(isEditing)
    {
      editText := text;
    }

    /** A new `task` prop for the same row (the list keys rows by id): the
        component state is kept as it was, so the editor text is not
        refreshed. A task with another id mounts a new row, which is the
        constructor. */
    method ReceiveTask(t: Task)
      requires t.id == task.id
      modifies this
      ensures task == t
      ensures isEditing == old(isEditing) && editText == old(editText)
    {
      task := t;
    }

    /** `handleUpdate` (Save): returns the call-back made, if any, and
        always closes the editor; the editor text is left as typed. */
    method HandleUpdate() returns (sent: Option<Update>)
      modifies this
      ensures sent == UpdateToSend(old(task), old(editText))
      ensures !isEditing
      ensures task == old(task) && editText == old(editText)
    {
      var trimmed := Trim(editText);
      TrimEmptyIffBlank(editText);
      sent := None;
      if trimmed != [] && editText != task.text {
        sent := Some(Update(task.id, trimmed));
      }
      isEditing := false;
    }

    /** `handleCancel`: the editor text goes back to the task's text and the
        editor closes; no call-back is made. */
    method HandleCancel()
      modifies this
      ensures editText == task.text && !isEditing
      ensures task == old(task)
    {
      editText := task.text;
      isEditing := false;
    }

    /** A key pressed in the editor: Enter saves exactly as the Save button
        does, any other key changes nothing. */
    method HandleKeyPress(key: string) returns (sent: Option<Update>)
      modifies this
      ensures key == "Enter" ==> sent == UpdateToSend(old(task), old(editText)) && !isEditing
      ensures key != "Enter" ==> sent == None && isEditing == old(isEditing)
      ensures task == old(task) && editText == old(editText)
    {
      sent := None;
      if key == "Enter" {
        sent := HandleUpdate();
      }
    }
  }

  /** Cancelling an edit throws away whatever was typed: a later Save sends
      nothing. */
  method CancelThenSave(item: TaskItemState, typed: string) returns (sent: Option<Update>)
    modifies item
    ensures sent == None
    ensures item.task == old(item.task) && item.editText == item.task.text && !item.isEditing
  {
    item.StartEditing();
    item.ChangeText(typed);
    item.HandleCancel();
    sent := item.HandleUpdate();
  }
}
