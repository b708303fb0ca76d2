/**
 * The home page: the redirect to a chat the user already belongs to, the
 * interest list with its default selections, and the join and create
 * dialogs. Each handler runs to completion with the outcome of its HTTP
 * call given as a parameter.
 */
module HomePage {
  import opened Common
  import opened Strings
  import opened Domain

  const InterestsFailedText: string := "Failed to load interests. Please try again."
  const SelectToJoinText: string := "Please select an interest to join a chat."
  const JoinFailedText: string := "Failed to join chat. No active chats for this interest or you might already be in one."
  const SelectToCreateText: string := "Please select an interest for the new chat."
  const CreateFailedText: string := "Failed to create chat. You might already have an active chat."

  /**
   * The active-chat check, run once a user is loaded: a current chat with a
   * truthy id replaces the page with /chat. No chat (the service maps 404
   * and 204 to null) and any other error leave the page as it is.
   */
  function ActiveChatRedirect(hasUser: bool, authLoading: bool, current: ChatFetch): (r: Option<Navigation>)
    ensures r.Some? <==>
      hasUser && !authLoading && current.ChatFound? && current.chat.Some? && IdTruthy(Some(current.chat.value.id))
    ensures r.Some? ==> r.value == Navigation("/chat", None, None, true)
    ensures current.ChatFetchFailed? ==> r.None?
  {
    if hasUser && !authLoading && current.ChatFound? && current.chat.Some? && IdTruthy(Some(current.chat.value.id)) then
      Some(Navigation("/chat", None, None, true))
    else None
  }

  /** A chat with id 0 is falsy and does not redirect. */
  lemma ZeroChatIdDoesNotRedirect(c: Chat)
    requires c.id == NumId(0)
    ensures ActiveChatRedirect(true, false, ChatFound(Some(c))).None?
  {
  }

  class Home {
    var interests: seq<Interest>
    var selectedInterestToJoin: string
    var showJoinModal: bool
    var showCreateModal: bool
    var createChatName: string
    var createChatInterestId: string
    var pageError: string
    var modalError: string
    var actionLoading: bool
    var interestsLoading: bool

    /**
     * Each selection is empty or one of the options the select offers, and
     * no request is in flight between two handlers.
     */
    ghost predicate Valid()
      reads this
    {
      !actionLoading && !interestsLoading &&
      (selectedInterestToJoin == "" || Offers(interests, selectedInterestToJoin))
      && (createChatInterestId == "" || Offers(interests, createChatInterestId))
    }

    constructor()
      ensures interests == [] && selectedInterestToJoin == "" && createChatInterestId == ""
      ensures !showJoinModal && !showCreateModal && createChatName == ""
      ensures pageError == "" && modalError == "" && !actionLoading && !interestsLoading
      ensures Valid()
    {
      interests := [];
      selectedInterestToJoin := "";
      showJoinModal := false;
      showCreateModal := false;
      createChatName := "";
      createChatInterestId := "";
      pageError := "";
      modalError := "";
      actionLoading := false;
      interestsLoading := false;
    }

    /**
     * The mount effect `loadInterests()`: the list becomes the data or [],
     * a non-empty list preselects its first interest in both dialogs, and a
     * failure sets the page error. Loading ends on every path.
     */
    method LoadInterests(fetch: InterestsFetch)
      requires Valid() && interests == []
      modifies this
      ensures Valid() && !interestsLoading
      ensures fetch.InterestsLoaded? ==> interests == fetch.data.GetOr([]) && pageError == ""
      ensures fetch.InterestsLoaded? && interests != [] ==>
        selectedInterestToJoin == DefaultInterestId(interests).value
        && createChatInterestId == DefaultInterestId(interests).value
      ensures fetch.InterestsLoaded? && interests == [] ==>
        selectedInterestToJoin == old(selectedInterestToJoin) && createChatInterestId == old(createChatInterestId)
      ensures fetch.InterestsFailed? ==>
        interests == old(interests) && pageError == ServerMessageOr(fetch.error, InterestsFailedText)
        && selectedInterestToJoin == old(selectedInterestToJoin) && createChatInterestId == old(createChatInterestId)
      ensures showJoinModal == old(showJoinModal) && showCreateModal == old(showCreateModal)
      ensures createChatName == old(createChatName) && modalError == old(modalError) && actionLoading == old(actionLoading)
    {
      interestsLoading := true;
      pageError := "";
      match fetch {
        case InterestsLoaded(data) =>
          interests := data.GetOr([]);
          if data.Some? && |data.value| > 0 {
            selectedInterestToJoin := IntToString(data.value[0].id);
            createChatInterestId := IntToString(data.value[0].id);
            DefaultIsOffered(interests);
          }
        case InterestsFailed(e) =>
          pageError := ServerMessageOr(e, InterestsFailedText);
      }
      interestsLoading := false;
    }

    /** "Join Existing Chat": the dialog opens with no error. */
    method OpenJoinModal()
      requires Valid()
      modifies this
      ensures Valid() && showJoinModal && modalError == ""
      ensures interests == old(interests) && selectedInterestToJoin == old(selectedInterestToJoin)
      ensures createChatInterestId == old(createChatInterestId) && createChatName == old(createChatName)
      ensures showCreateModal == old(showCreateModal) && pageError == old(pageError)
      ensures actionLoading == old(actionLoading) && interestsLoading == old(interestsLoading)
    {
      modalError := "";
      showJoinModal := true;
    }

    /** "Make New Chat": the dialog opens with an empty name and no error. */
    method OpenCreateModal()
      requires Valid()
      modifies this
      ensures Valid() && showCreateModal && modalError == "" && createChatName == ""
      ensures interests == old(interests) && selectedInterestToJoin == old(selectedInterestToJoin)
      ensures createChatInterestId == old(createChatInterestId)
      ensures showJoinModal == old(showJoinModal) && pageError == old(pageError)
      ensures actionLoading == old(actionLoading) && interestsLoading == old(interestsLoading)
    {
      modalError := "";
      createChatName := "";
      showCreateModal := true;
    }

    /** Cancel or the close button of either dialog. */
    method HideModals(join: bool, create: bool)
      requires Valid()
      modifies this
      ensures Valid()
      ensures showJoinModal == (old(showJoinModal) && !join)
      ensures showCreateModal == (old(showCreateModal) && !create)
      ensures interests == old(interests) && selectedInterestToJoin == old(selectedInterestToJoin)
      ensures createChatInterestId == old(createChatInterestId) && createChatName == old(createChatName)
      ensures modalError == old(modalError) && pageError == old(pageError)
      ensures actionLoading == old(actionLoading) && interestsLoading == old(interestsLoading)
    {
      if join {
        showJoinModal := false;
      }
      if create {
        showCreateModal := false;
      }
    }

    /** Picking an option in the join dialog's select. */
    method SelectInterestToJoin(v: string)
      requires Valid() && Offers(interests, v)
      modifies this
      ensures Valid() && selectedInterestToJoin == v
      ensures interests == old(interests) && createChatInterestId == old(createChatInterestId)
      ensures createChatName == old(createChatName) && modalError == old(modalError) && pageError == old(pageError)
      ensures showJoinModal == old(showJoinModal) && showCreateModal == old(showCreateModal)
      ensures actionLoading == old(actionLoading) && interestsLoading == old(interestsLoading)
    {
      selectedInterestToJoin := v;
    }

    /** Picking an option in the create dialog's select. */
    method SelectCreateInterest(v: string)
      requires Valid() && Offers(interests, v)
      modifies this
      ensures Valid() && createChatInterestId == v
      ensures interests == old(interests) && selectedInterestToJoin == old(selectedInterestToJoin)
      ensures createChatName == old(createChatName) && modalError == old(modalError) && pageError == old(pageError)
      ensures showJoinModal == old(showJoinModal) && showCreateModal == old(showCreateModal)
      ensures actionLoading == old(actionLoading) && interestsLoading == old(interestsLoading)
    {
      createChatInterestId := v;
    }

    /** Typing in the create dialog's name field. */
    method SetCreateChatName(v: string)
      requires Valid()
      modifies this
      ensures Valid() && createChatName == v
      ensures interests == old(interests) && selectedInterestToJoin == old(selectedInterestToJoin)
      ensures createChatInterestId == old(createChatInterestId) && modalError == old(modalError) && pageError == old(pageError)
      ensures showJoinModal == old(showJoinModal) && showCreateModal == old(showCreateModal)
      ensures actionLoading == old(actionLoading) && interestsLoading == old(interestsLoading)
    {
      createChatName := v;
    }

    /**
     * `handleJoinChat`: without a selection the dialog shows an error and no
     * call is made; otherwise `joinChatByInterest` is called with the
     * selection, which is a listed interest's id; success goes to /chat,
     * failure shows the error and keeps the dialog open.
     */
    method HandleJoinChat(outcome: ActionOutcome) returns (joinedWith: Option<string>, navigation: Option<Navigation>)
      requires Valid()
      modifies this
      ensures Valid() && !actionLoading
      ensures selectedInterestToJoin == "" ==>
        joinedWith.None? && navigation.None? && modalError == SelectToJoinText && actionLoading == old(actionLoading)
      ensures selectedInterestToJoin != "" ==>
        joinedWith == Some(selectedInterestToJoin) && Offers(interests, joinedWith.value)
      ensures selectedInterestToJoin != "" && outcome.Succeeded? ==>
        navigation == Some(GoTo("/chat")) && modalError == ""
      ensures selectedInterestToJoin != "" && outcome.ActionFailed? ==>
        navigation.None? && modalError == ServerMessageOr(outcome.error, JoinFailedText)
      ensures interests == old(interests) && selectedInterestToJoin == old(selectedInterestToJoin)
      ensures createChatInterestId == old(createChatInterestId) && createChatName == old(createChatName)
      ensures showJoinModal == old(showJoinModal) && showCreateModal == old(showCreateModal)
      ensures pageError == old(pageError) && interestsLoading == old(interestsLoading)
    {
      if selectedInterestToJoin == "" {
        modalError := SelectToJoinText;
        return None, None;
      }
      actionLoading := true;
      modalError := "";
      joinedWith := Some(selectedInterestToJoin);
      match outcome {
        case Succeeded =>
          navigation := Some(GoTo("/chat"));
        case ActionFailed(e) =>
          navigation := None;
          modalError := ServerMessageOr(e, JoinFailedText);
      }
      actionLoading := false;
    }

    /**
     * `handleCreateChat`: without a selected interest the dialog shows an
     * error and no call is made; otherwise `createNewChat` receives the
     * trimmed name or null and the parsed interest id, which is the id of a
     * listed interest; success goes to /chat, failure shows the error and
     * keeps the dialog open.
     */
    method HandleCreateChat(outcome: ActionOutcome) returns (request: Option<CreateChatRequest>, navigation: Option<Navigation>)
      requires Valid()
      modifies this
      ensures Valid() && !actionLoading
      ensures createChatInterestId == "" ==>
        request.None? && navigation.None? && modalError == SelectToCreateText && actionLoading == old(actionLoading)
      ensures createChatInterestId != "" ==>
        request == Some(BuildCreateChatRequest(createChatName, createChatInterestId))
        && NamesListedInterest(interests, request.value)
      ensures createChatInterestId != "" && outcome.Succeeded? ==>
        navigation == Some(GoTo("/chat")) && modalError == ""
      ensures createChatInterestId != "" && outcome.ActionFailed? ==>
        navigation.None? && modalError == ServerMessageOr(outcome.error, CreateFailedText)
      ensures interests == old(interests) && selectedInterestToJoin == old(selectedInterestToJoin)
      ensures createChatInterestId == old(createChatInterestId) && createChatName == old(createChatName)
      ensures showJoinModal == old(showJoinModal) && showCreateModal == old(showCreateModal)
      ensures pageError == old(pageError) && interestsLoading == old(interestsLoading)
    {
      if createChatInterestId == "" {
        modalError := SelectToCreateText;
        return None, None;
      }
      actionLoading := true;
      modalError := "";
      request := Some(BuildCreateChatRequest(createChatName, createChatInterestId));
      OfferedSelectionNamesListedInterest(interests, createChatName, createChatInterestId);
      match outcome {
        case Succeeded =>
          navigation := Some(GoTo("/chat"));
        case ActionFailed(e) =>
          navigation := None;
          modalError := ServerMessageOr(e, CreateFailedText);
      }
      actionLoading := false;
    }
  }
}
