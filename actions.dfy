/** The thunks that fill and empty the error slot. */
module Actions {

  import opened Types
  import opened Strings
  import opened AppSlice

  /** JavaScript truthiness of an error's `data`: absent data and an empty
      string body are false, any object body is true. */
  function DataTruthy(d: ErrorData): (r: bool)
    ensures d.NoData? ==> !r
    ensures d.Body? ==> r
    ensures d.Text? ==> (r <==> d.text != "")
  {
    match d
    case NoData => false
    case Text(s) => s != ""
    case Body(_) => true
  }

  /** The status part of "(Server Error ...)": `error.status || ""`. */
  function StatusOrEmpty(status: Option<Status>): (r: string)
    ensures status.None? ==> r == ""
    ensures status.Some? && !StatusTruthy(status.value) ==> r == ""
    ensures status.Some? && StatusTruthy(status.value) ==> r == StatusText(status.value)
  {
    if status.Some? && StatusTruthy(status.value) then StatusText(status.value) else ""
  }

  /** The message `handleAsyncError` puts in the error slot for an error
      and an operation-specific default. Whatever the error, the message
      mentions the default. */
  function AsyncErrorMessage(error: ApiError, defaultMessage: string): (message: string)
    ensures Contains(message, defaultMessage)
  {
    if DataTruthy(error.data) then
      if error.data.Text? then
        ContainsPrefix(defaultMessage, ": " + error.data.text);
        defaultMessage + ": " + error.data.text
      else if Present(error.data.message) then
        ContainsPrefix(defaultMessage, ": " + error.data.message.value);
        defaultMessage + ": " + error.data.message.value
      else
        ContainsPrefix(defaultMessage, " (Server Error " + StatusOrEmpty(error.status) + ")");
        defaultMessage + " (Server Error " + StatusOrEmpty(error.status) + ")"
    else if error.status.Some? && StatusTruthy(error.status.value) then
      ContainsPrefix(defaultMessage, " (HTTP " + StatusText(error.status.value) + ")");
      defaultMessage + " (HTTP " + StatusText(error.status.value) + ")"
    else if Present(error.message) then
      if Contains(error.message.value, defaultMessage) then error.message.value
      else
        ContainsPrefix(defaultMessage, ": " + error.message.value);
        defaultMessage + ": " + error.message.value
    else
      defaultMessage
  }

  /** The message for each shape of error: server detail appended to the
      default; the status when there is no body; a message that already
      mentions the default kept as it is, otherwise appended; and exactly
      the default when the error carries none of these. */
  lemma AsyncErrorMessageCases(error: ApiError, d: string)
    ensures error.data.Text? && error.data.text != "" ==>
      AsyncErrorMessage(error, d) == d + ": " + error.data.text
    ensures error.data.Body? && Present(error.data.message) ==>
      AsyncErrorMessage(error, d) == d + ": " + error.data.message.value
    ensures error.data.Body? && !Present(error.data.message) ==>
      AsyncErrorMessage(error, d) == d + " (Server Error " + StatusOrEmpty(error.status) + ")"
    ensures !DataTruthy(error.data) && error.status.Some? && StatusTruthy(error.status.value) ==>
      AsyncErrorMessage(error, d) == d + " (HTTP " + StatusText(error.status.value) + ")"
    ensures !DataTruthy(error.data) && (error.status.None? || !StatusTruthy(error.status.value)) && Present(error.message) ==>
      AsyncErrorMessage(error, d) == (if Contains(error.message.value, d) then error.message.value else d + ": " + error.message.value)
    ensures !DataTruthy(error.data) && (error.status.None? || !StatusTruthy(error.status.value)) && !Present(error.message) ==>
      AsyncErrorMessage(error, d) == d
  {
  }

  /** The message always holds the default at an explicit position. */
  lemma DefaultMessageOccurs(error: ApiError, d: string) returns (i: nat)
    ensures i + |d| <= |AsyncErrorMessage(error, d)|
    ensures AsyncErrorMessage(error, d)[i..i + |d|] == d
  {
    i := ContainsAt(AsyncErrorMessage(error, d), d);
  }

  /** `handleAsyncError(error, defaultMessage)`: the error slot receives
      the formatted message and nothing else changes. */
  method HandleAsyncError(app: AppState, error: ApiError, defaultMessage: string)
    modifies app
    ensures app.errorMessage == Some(AsyncErrorMessage(error, defaultMessage))
    ensures app.filter == old(app.filter) && app.theme == old(app.theme)
  {
    var message := AsyncErrorMessage(error, defaultMessage);
    app.SetErrorMessage(Some(message));
  }

  /** `clearErrorMessage()`: the error slot is emptied. */
  method ClearErrorMessage(app: AppState)
    modifies app
    ensures app.errorMessage == None
    ensures app.filter == old(app.filter) && app.theme == old(app.theme)
  {
    app.ClearError();
  }
}
