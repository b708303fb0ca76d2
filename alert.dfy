/**
 * The alert component: whether it shows, and which text it shows when it
 * is handed either a plain string or an error object from the HTTP client.
 */
module Alert {
  import opened Common
  import opened Strings

  /** `error.response.data`: a bare string body, or an object body. */
  datatype ResponseData =
    | DataText(text: string)
      /** `message` is present only when it is a string; `errors` holds the values of the errors object. */
    | DataObject(message: Option<string>, errors: Option<seq<string>>)

  /**
   * What a caller may pass as `message`: a string, or an error object with an
   * optional HTTP response body, an optional `message` property and, for the
   * last resort, its JSON text (None when `JSON.stringify` throws).
   */
  datatype AlertInput =
    | Plain(text: string)
    | ErrorObject(responseData: Option<ResponseData>, message: Option<string>, json: Option<string>)

  /** JavaScript truthiness of the response body: an empty string body is falsy. */
  predicate DataTruthy(d: Option<ResponseData>) {
    d.Some? && (d.value.DataText? ==> d.value.text != "")
  }

  /** JavaScript truthiness of the `message` prop: an empty string is falsy, an object never is. */
  predicate InputTruthy(m: Option<AlertInput>) {
    m.Some? && (m.value.Plain? ==> m.value.text != "")
  }

  const GenericErrorText: string := "An unexpected error occurred. Please check console."
  const UnreadableErrorText: string := "An unreadable error object was received."

  /**
   * The text the alert shows: a string as it is; for an error object the
   * server's `message` string, else a string body, else the validation
   * errors joined by ". ", else a generic text; without a response body the
   * error's own message, else its JSON text, else a fixed text.
   */
  function DisplayMessage(m: AlertInput): (r: string)
    ensures m.Plain? ==> r == m.text
    ensures m.ErrorObject? && DataTruthy(m.responseData) ==>
      match m.responseData.value
      case DataText(t) => r == t
      case DataObject(msg, errs) =>
        (msg.Some? ==> r == msg.value)
        && (msg.None? && errs.Some? ==> r == Join(errs.value, ". "))
        && (msg.None? && errs.None? ==> r == GenericErrorText)
    ensures m.ErrorObject? && !DataTruthy(m.responseData) ==>
      (Truthy(m.message) ==> r == m.message.value)
      && (!Truthy(m.message) && m.json.Some? ==> r == m.json.value)
      && (!Truthy(m.message) && m.json.None? ==> r == UnreadableErrorText)
  {
    match m
    case Plain(t) => t
    case ErrorObject(data, message, json) =>
      if DataTruthy(data) then
        match data.value
        case DataObject(Some(msg), _) => msg
        case DataText(t) => t
        case DataObject(None, Some(errs)) => Join(errs, ". ")
        case DataObject(None, None) => GenericErrorText
      else if Truthy(message) then message.value
      else if json.Some? then json.value
      else UnreadableErrorText
  }

  /** What the component renders: nothing, or an alert of a variant with a text and maybe a close button. */
  datatype AlertView = Hidden | Shown(variant: string, text: string, dismissible: bool)

  /**
   * The component with props `variant` (default "danger"), `message`,
   * `show` (default true) and whether an `onClose` handler is given.
   */
  function Render(message: Option<AlertInput>, hasOnClose: bool, show: bool := true, variant: string := "danger"): (r: AlertView)
    ensures r.Hidden? <==> !show || !InputTruthy(message)
    ensures r.Shown? ==> r.variant == variant && r.text == DisplayMessage(message.value) && r.dismissible == hasOnClose
  {
    if !show || !InputTruthy(message) then Hidden
    else Shown(variant, DisplayMessage(message.value), hasOnClose)
  }

  /** Every page hands the alert a string: it shows exactly that string, when non-empty. */
  lemma PlainTextShownVerbatim(text: string, hasOnClose: bool)
    ensures Render(Some(Plain(text)), hasOnClose) ==
      if text == "" then Hidden else Shown("danger", text, hasOnClose)
  {
  }

  /** A string message from the server takes precedence over everything else in the error object. */
  lemma ServerMessageWins(msg: string, errs: Option<seq<string>>, own: Option<string>, json: Option<string>)
    ensures DisplayMessage(ErrorObject(Some(DataObject(Some(msg), errs)), own, json)) == msg
  {
  }
}
