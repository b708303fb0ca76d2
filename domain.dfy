/**
 * Records that several parts of the client share: identifiers as the server
 * sends them, chat messages, chats, interests, selected files, HTTP errors,
 * navigation requests and the create-chat request body.
 */
module Domain {
  import opened Common
  import opened Strings

  /** An identifier as it arrives in JSON: a number or a string. */
  datatype Id = NumId(n: int) | StrId(s: string)

  /** JavaScript truthiness of an optional identifier: 0 and "" are falsy. */
  predicate IdTruthy(id: Option<Id>) {
    match id
    case None => false
    case Some(NumId(n)) => n != 0
    case Some(StrId(s)) => s != ""
  }

  /** `String(id)`, which is also what a template literal `${id}` produces. */
  function IdText(id: Id): string {
    match id
    case NumId(n) => IntToString(n)
    case StrId(s) => s
  }

  /** A field of a JSON object received from the server. */
  datatype Value = Undefined | Null | Str(s: string) | Num(n: int) {
    predicate IsTruthy() {
      match this
      case Undefined => false
      case Null => false
      case Str(s) => s != ""
      case Num(n) => n != 0
    }
  }

  /** A JSON object (a user profile, for one), field name to value. */
  type Record = map<string, Value>

  /** `r[k]`: a missing field reads as `undefined`. */
  function Field(r: Record, k: string): Value {
    if k in r then r[k] else Undefined
  }

  /** A chat message as the server sends it (MessageDto). */
  datatype Message = Message(
    id: Option<Id>,
    senderId: Option<Id>,
    senderNickname: Option<string>,
    senderProfilePictureUrl: Option<string>,
    messageType: string,
    contentText: Option<string>,
    contentImageUrl: Option<string>)

  /** A chat as the server sends it (ChatDto); the expiry is ISO date text. */
  datatype Chat = Chat(id: Id, chatName: Option<string>, active: bool, expiresAt: Option<string>)

  datatype Interest = Interest(id: int, name: string)

  /** A file picked in a file input: its MIME type and its size in bytes. */
  datatype File = File(mimeType: string, size: int)

  /** `file.type.startsWith('image/')`. */
  predicate IsImageType(f: File) {
    StartsWith(f.mimeType, "image/")
  }

  /**
   * A rejected HTTP call: the status, `err.response.data.message` when the
   * server sent one, and the error's own `err.message`.
   */
  datatype HttpError = HttpError(status: Option<int>, serverMessage: Option<string>, message: Option<string>)

  /** `err.response?.data?.message || fallback`. */
  function ServerMessageOr(e: HttpError, fallback: string): (r: string)
    ensures Truthy(e.serverMessage) ==> r == e.serverMessage.value
    ensures !Truthy(e.serverMessage) ==> r == fallback
  {
    OrElse(e.serverMessage, fallback)
  }

  /** `err.response?.data?.message || err.message || fallback`. */
  function ErrorTextOr(e: HttpError, fallback: string): (r: string)
    ensures Truthy(e.serverMessage) ==> r == e.serverMessage.value
    ensures !Truthy(e.serverMessage) && Truthy(e.message) ==> r == e.message.value
    ensures !Truthy(e.serverMessage) && !Truthy(e.message) ==> r == fallback
  {
    OrElse(e.serverMessage, OrElse(e.message, fallback))
  }

  /** A call to `navigate(path, { state: { from, error }, replace })`. */
  datatype Navigation = Navigation(path: string, from: Option<string>, notice: Option<string>, replace: bool)

  function GoTo(path: string): Navigation {
    Navigation(path, None, None, false)
  }

  /** The body `createNewChat` sends: NaN from `parseInt` is serialised as null (None). */
  datatype CreateChatRequest = CreateChatRequest(chatName: Option<string>, primaryInterestId: Option<int>)

  /**
   * `{ chatName: name.trim() || null, primaryInterestId: parseInt(selected) }`,
   * built the same way by the home page and the create-chat page.
   */
  function BuildCreateChatRequest(name: string, selectedInterestId: string): (r: CreateChatRequest)
    ensures r.chatName.None? <==> AllWhitespace(name)
    ensures r.chatName.Some? ==> r.chatName.value == Trim(name)
    ensures r.primaryInterestId == ParseInt(selectedInterestId)
  {
    var trimmed := Trim(name);
    CreateChatRequest(if trimmed == "" then None else Some(trimmed), ParseInt(selectedInterestId))
  }

  /** The interest a list preselects: `String(list[0].id)` of a non-empty list. */
  function DefaultInterestId(interests: seq<Interest>): (r: Option<string>)
    ensures r.Some? <==> interests != []
  {
    if interests == [] then None else Some(IntToString(interests[0].id))
  }

  /** Selecting the default interest and creating a chat sends the first interest's id back intact. */
  lemma DefaultSelectionRoundTrip(interests: seq<Interest>, name: string)
    requires interests != []
    ensures BuildCreateChatRequest(name, DefaultInterestId(interests).value).primaryInterestId == Some(interests[0].id)
  {
    ParseIntOfIntToString(interests[0].id);
  }

  /**
   * Whether an interest select offers the value `v`: its options are the
   * listed interests, each with the value `String(interest.id)`.
   */
  predicate Offers(interests: seq<Interest>, v: string) {
    exists i :: 0 <= i < |interests| && v == IntToString(interests[i].id)
  }

  /** The preselected value is one of the options. */
  lemma DefaultIsOffered(interests: seq<Interest>)
    requires interests != []
    ensures Offers(interests, DefaultInterestId(interests).value)
  {
    assert DefaultInterestId(interests).value == IntToString(interests[0].id);
  }

  /** The request's interest is the id of one of the listed interests. */
  predicate NamesListedInterest(interests: seq<Interest>, request: CreateChatRequest) {
    exists i :: 0 <= i < |interests| && request.primaryInterestId == Some(interests[i].id)
  }

  /** Whatever option is selected, the create request names that listed interest's id. */
  lemma OfferedSelectionNamesListedInterest(interests: seq<Interest>, name: string, v: string)
    requires Offers(interests, v)
    ensures NamesListedInterest(interests, BuildCreateChatRequest(name, v))
  {
    var i :| 0 <= i < |interests| && v == IntToString(interests[i].id);
    ParseIntOfIntToString(interests[i].id);
  }

  /** Outcome of an HTTP call whose only result is success. */
  datatype ActionOutcome = Succeeded | ActionFailed(error: HttpError)

  /** Result of `getChatDetails(id)` or `getCurrentChat()` (null on 404 and 204). */
  datatype ChatFetch = ChatFound(chat: Option<Chat>) | ChatFetchFailed(error: HttpError)

  /** Outcome of `getAllInterests()`: the response data, possibly null, or an error. */
  datatype InterestsFetch = InterestsLoaded(data: Option<seq<Interest>>) | InterestsFailed(error: HttpError)
}
