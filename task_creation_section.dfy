/** The "Add New Task" section: a text field and a submit button that is
    disabled while the field holds only whitespace. */
module TaskCreationSection {

  import opened Types
  import opened Strings

  class CreationSectionState {
    var taskText: string

    /** The field starts empty. */
    constructor ()
      ensures taskText == ""
    {
      taskText := "";
    }

    /** `disabled={!taskText.trim()}`: the button is disabled exactly when a
        submit would create nothing. */
    function SubmitDisabled(): (r: bool)
      reads this
      ensures r <==> AllWhitespace(taskText)
      ensures r <==> TrimmedIfNotBlank(taskText).None?
    {
      TrimEmptyIffBlank(taskText);
      Trim(taskText) == []
    }

    /** Typing in the field. */
    method ChangeText(text: string)
      modifies this
      ensures taskText == text
    {
      taskText := text;
    }

    /** `handleSubmit`: returns the text passed to `onCreateTask`, if any.
        A field holding more than whitespace sends its trimmed text and is
        emptied; otherwise nothing is sent and the field keeps its text. */
    method HandleSubmit() returns (created: Option<string>)
      modifies this
      ensures created == TrimmedIfNotBlank(old(taskText))
      ensures created.Some? ==> taskText == ""
      ensures created.None? ==> taskText == old(taskText)
    {
      var trimmed := Trim(taskText);
      TrimEmptyIffBlank(taskText);
      created := None;
      if trimmed != [] {
        created := Some(trimmed);
        taskText := "";
      }
    }
  }

  /** After a submit that created a task the button is disabled again. */
  method SubmitDisablesButton(section: CreationSectionState) returns (created: Option<string>)
    modifies section
    ensures created.None? <==> old(section.SubmitDisabled())
    ensures created.Some? ==> section.SubmitDisabled()
  {
    created := section.HandleSubmit();
  }
}
