/** The simple new-task form: one text field and a submit button. */
module TaskForm {

  import opened Types
  import opened Strings

  class TaskFormState {
    var taskText: string

    /** The field starts empty. */
    constructor ()
      ensures taskText == ""
    {
      taskText := "";
    }

    /** Typing in the field. */
    method ChangeText(text: string)
      modifies this
      ensures taskText == text
    {
      taskText := text;
    }

    /** `handleSubmit`: returns the text passed to `onCreateTask`, if any.
        A field holding more than whitespace sends its trimmed text and is
        emptied; otherwise nothing is sent and the field keeps its text. */
    method HandleSubmit() returns (created: Option<string>)
      modifies this
      ensures created == TrimmedIfNotBlank(old(taskText))
      ensures created.Some? ==> taskText == ""
      ensures created.None? ==> taskText == old(taskText)
    {
      var trimmed := Trim(taskText);
      TrimEmptyIffBlank(taskText);
      created := None;
      if trimmed != [] {
        created := Some(trimmed);
        taskText := "";
      }
    }
  }

  /** Submitting twice in a row creates at most one task: the first
      successful submit empties the field. */
  method SubmitTwice(form: TaskFormState) returns (first: Option<string>, second: Option<string>)
    modifies form
    ensures first == TrimmedIfNotBlank(old(form.taskText))
    ensures second == None
  {
    first := form.HandleSubmit();
    second := form.HandleSubmit();
  }
}
