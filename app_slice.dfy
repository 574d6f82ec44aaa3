/** The application slice of the store: which list is shown, the message
    in the error slot, and the colour theme. */
module AppSlice {

  import opened Types

  datatype Filter = All | Completed | Incomplete

  datatype Theme = Light | Dark

  /** The theme after a toggle: light becomes dark and anything else light. */
  function Toggled(t: Theme): (r: Theme)
    ensures r != t
  {
    if t == Light then Dark else Light
  }

  /** Toggling twice gives back the theme one started with. */
  lemma ToggledTwice(t: Theme)
    ensures Toggled(Toggled(t)) == t
  {
  }

  class AppState {
    var filter: Filter
    var errorMessage: Option<string>
    var theme: Theme

    /** `initialState`: all tasks, no error, dark theme. */
    constructor ()
      ensures filter == All && errorMessage == None && theme == Dark
    {
      filter := All;
      errorMessage := None;
      theme := Dark;
    }

    method SetFilter(f: Filter)
      modifies this
      ensures filter == f
      ensures errorMessage == old(errorMessage) && theme == old(theme)
    {
      filter := f;
    }

    /** The payload may be null (`None`). */
    method SetErrorMessage(message: Option<string>)
      modifies this
      ensures errorMessage == message
      ensures filter == old(filter) && theme == old(theme)
    {
      errorMessage := message;
    }

    method ClearError()
      modifies this
      ensures errorMessage == None
      ensures filter == old(filter) && theme == old(theme)
    {
      errorMessage := None;
    }

    method ToggleTheme()
      modifies this
      ensures theme == Toggled(old(theme))
      ensures filter == old(filter) && errorMessage == old(errorMessage)
    {
      theme := Toggled(theme);
    }
  }

  /** Clearing the error a second time changes nothing. */
  method ClearErrorTwice(s: AppState)
    modifies s
    ensures s.errorMessage == None
    ensures s.filter == old(s.filter) && s.theme == old(s.theme)
  {
    s.ClearError();
    ghost var once := (s.filter, s.errorMessage, s.theme);
    s.ClearError();
    assert (s.filter, s.errorMessage, s.theme) == once;
  }

  /** Toggling the theme twice restores the whole state. */
  method ToggleThemeTwice(s: AppState)
    modifies s
    ensures s.filter == old(s.filter) && s.errorMessage == old(s.errorMessage) && s.theme == old(s.theme)
  {
    s.ToggleTheme();
    s.ToggleTheme();
    ToggledTwice(old(s.theme));
  }
}
