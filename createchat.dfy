/**
 * The create-chat page: its interest list with a default selection, the
 * submit handler, and the redirect to login when nobody is signed in.
 */
module CreateChat {
  import opened Common
  import opened Strings
  import opened Domain

  const InterestsFailedText: string := "Failed to load interests. Please try again."
  const SelectInterestText: string := "Please select an interest for the chat."
  const CreateFailedText: string := "Failed to create chat. You might already have an active chat."
  const PagePath: string := "/create-chat"

  /** What the page renders: the form, or nothing after asking for a redirect. */
  datatype Gate = ShowForm | RedirectToLogin(navigation: Navigation)

  /** Without a current user the page sends the visitor to /login, to come back here, and renders nothing. */
  function PageGate(hasUser: bool): (r: Gate)
    ensures r.ShowForm? <==> hasUser
    ensures r.RedirectToLogin? ==> r.navigation.path == "/login" && r.navigation.from == Some(PagePath)
  {
    if hasUser then ShowForm else RedirectToLogin(Navigation("/login", Some(PagePath), None, false))
  }

  class CreateChatForm {
    var chatName: string
    var selectedInterestId: string
    var interests: seq<Interest>
    var loading: bool
    var error: string
    var interestsLoading: bool

    /**
     * The selection is empty (the placeholder option) or one of the listed
     * interests, and no submit is in flight between two handlers.
     */
    ghost predicate Valid()
      reads this
    {
      !loading && (selectedInterestId == "" || Offers(interests, selectedInterestId))
    }

    constructor()
      ensures chatName == "" && selectedInterestId == "" && interests == []
      ensures !loading && error == "" && interestsLoading
      ensures Valid()
    {
      chatName := "";
      selectedInterestId := "";
      interests := [];
      loading := false;
      error := "";
      interestsLoading := true;
    }

    /**
     * The mount effect `loadInterests()`: the list becomes the data or [],
     * a non-empty list selects its first interest, and a failure sets the
     * error. Loading ends on every path.
     */
    method LoadInterests(fetch: InterestsFetch)
      requires Valid() && interests == []
      modifies this
      ensures Valid() && !interestsLoading
      ensures fetch.InterestsLoaded? ==> interests == fetch.data.GetOr([]) && error == ""
      ensures fetch.InterestsLoaded? && interests != [] ==> selectedInterestId == DefaultInterestId(interests).value
      ensures fetch.InterestsLoaded? && interests == [] ==> selectedInterestId == old(selectedInterestId)
      ensures fetch.InterestsFailed? ==>
        interests == old(interests) && selectedInterestId == old(selectedInterestId)
        && error == ServerMessageOr(fetch.error, InterestsFailedText)
      ensures chatName == old(chatName)
    {
      interestsLoading := true;
      error := "";
      match fetch {
        case InterestsLoaded(data) =>
          interests := data.GetOr([]);
          if data.Some? && |data.value| > 0 {
            selectedInterestId := IntToString(data.value[0].id);
            DefaultIsOffered(interests);
          }
        case InterestsFailed(e) =>
          error := ServerMessageOr(e, InterestsFailedText);
      }
      interestsLoading := false;
    }

    /** Typing in the name field. */
    method SetChatName(v: string)
      requires Valid()
      modifies this
      ensures Valid() && chatName == v
      ensures selectedInterestId == old(selectedInterestId) && interests == old(interests)
      ensures error == old(error) && interestsLoading == old(interestsLoading)
    {
      chatName := v;
    }

    /** Picking an option; the placeholder can be picked only while nothing else is selected. */
    method SelectInterest(v: string)
      requires Valid()
      requires Offers(interests, v) || (v == "" && selectedInterestId == "")
      modifies this
      ensures Valid() && selectedInterestId == v
      ensures chatName == old(chatName) && interests == old(interests)
      ensures error == old(error) && interestsLoading == old(interestsLoading)
    {
      selectedInterestId := v;
    }

    /** The alert's close button. */
    method DismissError()
      requires Valid()
      modifies this
      ensures Valid() && error == ""
      ensures chatName == old(chatName) && selectedInterestId == old(selectedInterestId)
      ensures interests == old(interests) && interestsLoading == old(interestsLoading)
    {
      error := "";
    }

    /**
     * `handleSubmit`: without a selected interest the error is set and no
     * call is made; otherwise `createNewChat` receives the trimmed name or
     * null and the parsed id of the selected, listed interest; success goes
     * to /chat and failure sets the error.
     */
    method HandleSubmit(outcome: ActionOutcome) returns (request: Option<CreateChatRequest>, navigation: Option<Navigation>)
      requires Valid()
      modifies this
      ensures Valid()
      ensures selectedInterestId == "" ==> request.None? && navigation.None? && error == SelectInterestText
      ensures selectedInterestId != "" ==>
        request == Some(BuildCreateChatRequest(chatName, selectedInterestId))
        && NamesListedInterest(interests, request.value)
      ensures selectedInterestId != "" && outcome.Succeeded? ==> navigation == Some(GoTo("/chat")) && error == ""
      ensures selectedInterestId != "" && outcome.ActionFailed? ==>
        navigation.None? && error == ServerMessageOr(outcome.error, CreateFailedText)
      ensures chatName == old(chatName) && selectedInterestId == old(selectedInterestId)
      ensures interests == old(interests) && interestsLoading == old(interestsLoading)
    {
      if selectedInterestId == "" {
        error := SelectInterestText;
        return None, None;
      }
      loading := true;
      error := "";
      request := Some(BuildCreateChatRequest(chatName, selectedInterestId));
      OfferedSelectionNamesListedInterest(interests, chatName, selectedInterestId);
      match outcome {
        case Succeeded =>
          navigation := Some(GoTo("/chat"));
        case ActionFailed(e) =>
          navigation := None;
          error := ServerMessageOr(e, CreateFailedText);
      }
      loading := false;
    }
  }
}
