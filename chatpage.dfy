/**
 * The chat page: loading the user's chat and its history, opening and
 * closing the STOMP connection, reacting to what the connection reports,
 * sending, leaving and expiring. The STOMP library is abstract: each
 * client created is a record of its chat and its `active`/`connected`
 * flags, and what the library reports (connected, a frame, a broker error,
 * a transport error, a disconnect) arrives as a method call naming the
 * client that reports it.
 */
module ChatPage {
  import opened Common
  import opened Strings
  import opened Domain
  import Constants

  /** One STOMP client the page created: the chat it was made for and the library's flags. */
  datatype Conn = Conn(chatId: Id, active: bool, connected: bool)

  /** The body of a published chat message. */
  datatype Payload = Payload(messageType: string, contentText: Option<string>, contentImageUrl: Option<string>)

  /** One `publish` call: destination and body. */
  datatype Publish = Publish(destination: string, body: Payload)

  /** Which way the connection effect went. */
  datatype EffectPath = Skipped | AlreadyActive | Created

  /** What a broker error asks of the rest of the app: a logout and a redirect, or nothing. */
  datatype StompErrorReaction = StompErrorReaction(logout: bool, navigation: Option<Navigation>)

  const ExpiredChatText: string := "Your chat has expired or is no longer active."
  const NoActiveChatText: string := "No active chat found."
  const LoadFailedText: string := "Failed to load chat data."
  const SendFailedText: string := "Failed to send message. Connection issue?"
  const NotConnectedText: string := "Not connected to chat or chat is inactive."
  const LeaveFailedText: string := "Error leaving chat."
  const ChatExpiredText: string := "This chat has expired."
  const ConnectionLostText: string := "WebSocket connection lost. Attempting to reconnect..."
  const SessionExpiredText: string := "Session expired or invalid."
  /** The page error for a broker ERROR frame is this prefix and the frame's message. */
  const BrokerErrorPrefix: string := "WebSocket connection error: "
  /** The message assumed when an ERROR frame has no `message` header. */
  const BrokerErrorFallback: string := "Broker error"
  /** The page error for a frame on the user's error queue is this prefix and the body. */
  const ErrorQueuePrefix: string := "Chat Error: "

  /** The page error when the fetched chat is missing or inactive. */
  function LoadErrorText(chat: Option<Chat>): (r: string)
    requires chat.None? || !chat.value.active
    ensures r == ExpiredChatText <==> chat.Some?
    ensures r == NoActiveChatText <==> chat.None?
  {
    if chat.Some? then ExpiredChatText else NoActiveChatText
  }

  /** The path a logged-out visitor is sent back to after logging in. */
  function ChatPath(chatIdFromUrl: Option<string>): (r: string)
    ensures !Truthy(chatIdFromUrl) ==> r == "/chat"
    ensures Truthy(chatIdFromUrl) ==> r == "/chat/" + chatIdFromUrl.value
  {
    "/chat" + (if Truthy(chatIdFromUrl) then "/" + chatIdFromUrl.value else "")
  }

  /** The topic the page subscribes to for a chat's messages. */
  function ChatTopic(chatId: Id): (r: string)
    ensures r == Constants.ChatTopicPrefix + IdText(chatId)
  {
    "/topic/chat/" + IdText(chatId)
  }

  /** The destination the page publishes a chat's messages to. */
  function SendDestination(chatId: Id): (r: string)
    ensures r == Constants.SendMessageEndpoint(chatId)
  {
    "/app/chat/" + IdText(chatId) + "/send"
  }

  /** Whether a broker error message names an authentication failure. */
  predicate IsAuthFailure(message: string) {
    Includes(message, "AccessDeniedException") || Includes(message, "401")
  }

  /**
   * What the page does about a broker error with this message: an
   * authentication failure logs the user out and replaces the history entry
   * with the login page, remembering where the user was; any other error
   * only shows.
   */
  function StompErrorReactionTo(message: string, locationPath: string): (r: StompErrorReaction)
    ensures r.logout <==> IsAuthFailure(message)
    ensures r.navigation.Some? <==> r.logout
    ensures r.logout ==> r.navigation.value == Navigation("/login", Some(locationPath), Some(SessionExpiredText), true)
  {
    if IsAuthFailure(message) then
      StompErrorReaction(true, Some(Navigation("/login", Some(locationPath), Some(SessionExpiredText), true)))
    else StompErrorReaction(false, None)
  }

  /** The payload: the text only for TEXT, the image URL only for IMAGE. */
  function BuildPayload(text: Option<string>, messageType: string, imageUrl: Option<string>): (r: Payload)
    ensures r.messageType == messageType
    ensures r.contentText.Some? ==> messageType == Constants.TextType && r.contentText == text
    ensures r.contentImageUrl.Some? ==> messageType == Constants.ImageType && r.contentImageUrl == imageUrl
    ensures messageType == Constants.TextType ==> r.contentText == text && r.contentImageUrl.None?
    ensures messageType == Constants.ImageType ==> r.contentImageUrl == imageUrl && r.contentText.None?
  {
    Payload(messageType,
            if messageType == "TEXT" then text else None,
            if messageType == "IMAGE" then imageUrl else None)
  }

  /** An image message never carries text: a caption handed to the page does not reach the server. */
  lemma ImageCaptionNeverSent(caption: Option<string>, imageUrl: Option<string>)
    ensures BuildPayload(caption, Constants.ImageType, imageUrl) == Payload("IMAGE", None, imageUrl)
  {
  }

  /** The chat-topic callback: a parsed frame goes at the end, an unparsable one changes nothing. */
  function AppendFrame(messages: seq<Message>, parsed: Option<Message>): (r: seq<Message>)
    ensures parsed.None? ==> r == messages
    ensures parsed.Some? ==> |r| == |messages| + 1 && r[..|messages|] == messages && r[|messages|] == parsed.value
  {
    if parsed.Some? then messages + [parsed.value] else messages
  }

  /** The messages of the frames that parsed, in arrival order. */
  function ParsedMessages(frames: seq<Option<Message>>): seq<Message> {
    if frames == [] then []
    else ParsedMessages(frames[..|frames| - 1])
         + (if frames[|frames| - 1].Some? then [frames[|frames| - 1].value] else [])
  }

  /** The list after a run of frames, one callback after another. */
  function ApplyFrames(messages: seq<Message>, frames: seq<Option<Message>>): seq<Message> {
    if frames == [] then messages
    else AppendFrame(ApplyFrames(messages, frames[..|frames| - 1]), frames[|frames| - 1])
  }

  /**
   * Frames only ever extend the list: after any run of frames it is the
   * loaded history followed by the parsed messages in arrival order.
   */
  lemma {:induction false} FramesExtendHistory(history: seq<Message>, frames: seq<Option<Message>>)
    ensures ApplyFrames(history, frames) == history + ParsedMessages(frames)
  {
    if frames != [] {
      FramesExtendHistory(history, frames[..|frames| - 1]);
    }
  }

  class Page {
    var chatDetails: Option<Chat>
    var messages: seq<Message>
    var error: string
    var loading: bool
    var connecting: bool
    var isWsConnected: bool
    /** Every client the page has created, in creation order. */
    var clients: seq<Conn>
    /** `stompClientRef.current`: an index into `clients`, or null. */
    var current: Option<nat>
    /** `chatExpiredRef.current`. */
    var chatExpired: bool
    /** Whether the last run of the connection effect returned a cleanup. */
    var cleanupRegistered: bool

    /** Only the client in the ref can be active, and only an active client is connected. */
    ghost predicate Valid()
      reads this
    {
      && (current.Some? ==> current.value < |clients|)
      && (forall i :: 0 <= i < |clients| && clients[i].connected ==> clients[i].active)
      && (forall i :: 0 <= i < |clients| && clients[i].active ==> current == Some(i))
    }

    /** An active client in the ref always has a cleanup registered that will deactivate it. */
    ghost predicate CleanupCovers()
      reads this
    {
      current.Some? && current.value < |clients| && clients[current.value].active ==> cleanupRegistered
    }

    /** Whether the ref holds an active client. */
    predicate RefActive()
      reads this
    {
      current.Some? && current.value < |clients| && clients[current.value].active
    }

    /** The client list once the ref's client, if it is active, has been deactivated. */
    ghost function RefDeactivated(): seq<Conn>
      reads this
    {
      if RefActive() then clients[current.value := Conn(clients[current.value].chatId, false, false)] else clients
    }

    /** The initial state of the page's hooks. */
    constructor()
      ensures chatDetails.None? && messages == [] && error == "" && loading
      ensures !connecting && !isWsConnected && clients == [] && current.None?
      ensures !chatExpired && !cleanupRegistered
      ensures Valid() && CleanupCovers()
    {
      chatDetails := None;
      messages := [];
      error := "";
      loading := true;
      connecting := false;
      isWsConnected := false;
      clients := [];
      current := None;
      chatExpired := false;
      cleanupRegistered := false;
    }

    /** `deactivate()` on client `i`: it stops and drops its connection. */
    method Deactivate(i: nat)
      requires Valid() && i < |clients|
      modifies this
      ensures clients == old(clients)[i := Conn(old(clients)[i].chatId, false, false)]
      ensures chatDetails == old(chatDetails) && messages == old(messages) && error == old(error)
      ensures loading == old(loading) && connecting == old(connecting) && isWsConnected == old(isWsConnected)
      ensures current == old(current) && chatExpired == old(chatExpired) && cleanupRegistered == old(cleanupRegistered)
      ensures Valid() && (old(CleanupCovers()) ==> CleanupCovers())
    {
      clients := clients[i := Conn(clients[i].chatId, false, false)];
    }

    /**
     * `fetchChatData()`: without a user, a redirect to the login page that
     * remembers this chat's path; otherwise the error and the expired flag
     * are reset and the fetch decides. A missing or inactive chat clears the
     * details and schedules a return home; an active chat is stored and the
     * message list replaced by its history; a failure clears the details.
     * `history` is what `getChatMessages` resolved with (it never rejects).
     */
    method FetchChatData(hasUser: bool, chatIdFromUrl: Option<string>, fetch: ChatFetch,
                         history: Option<seq<Message>>) returns (navigation: Option<Navigation>)
      requires Valid()
      modifies this
      ensures Valid() && (old(CleanupCovers()) ==> CleanupCovers())
      ensures clients == old(clients) && current == old(current) && cleanupRegistered == old(cleanupRegistered)
      ensures connecting == old(connecting) && isWsConnected == old(isWsConnected)
      ensures !hasUser ==>
        navigation == Some(Navigation("/login", Some(ChatPath(chatIdFromUrl)), None, false))
        && chatDetails == old(chatDetails) && messages == old(messages) && error == old(error)
        && loading == old(loading) && chatExpired == old(chatExpired)
      ensures hasUser ==> !loading && !chatExpired
      ensures hasUser && fetch.ChatFound? && (fetch.chat.None? || !fetch.chat.value.active) ==>
        chatDetails.None? && error == LoadErrorText(fetch.chat) && messages == old(messages)
        && navigation == Some(GoTo("/"))
      ensures hasUser && fetch.ChatFound? && fetch.chat.Some? && fetch.chat.value.active ==>
        chatDetails == fetch.chat && messages == history.GetOr([]) && error == "" && navigation.None?
      ensures hasUser && fetch.ChatFetchFailed? ==>
        chatDetails.None? && error == ServerMessageOr(fetch.error, LoadFailedText)
        && messages == old(messages) && navigation.None?
    {
      if !hasUser {
        return Some(Navigation("/login", Some(ChatPath(chatIdFromUrl)), None, false));
      }
      loading := true;
      error := "";
      chatExpired := false;
      navigation := None;
      match fetch {
        case ChatFound(chat) =>
          if chat.None? || !chat.value.active {
            error := LoadErrorText(chat);
            chatDetails := None;
            navigation := Some(GoTo("/"));
          } else {
            chatDetails := chat;
            messages := history.GetOr([]);
          }
        case ChatFetchFailed(e) =>
          error := ServerMessageOr(e, LoadFailedText);
          chatDetails := None;
      }
      loading := false;
    }

    /**
     * The cleanup the previous run of the connection effect registered, if
     * any: an active client in the ref is deactivated and forgotten and the
     * page shows itself disconnected. Without a registered cleanup nothing
     * changes.
     */
    method RunCleanup()
      requires Valid()
      modifies this
      ensures Valid() && !cleanupRegistered && |clients| == |old(clients)|
      ensures chatDetails == old(chatDetails) && messages == old(messages) && error == old(error)
      ensures loading == old(loading) && chatExpired == old(chatExpired) && connecting == old(connecting)
      ensures old(cleanupRegistered) ==> !RefActive()
      ensures old(cleanupRegistered) && old(RefActive()) ==>
        clients == old(clients)[old(current.value) := Conn(old(clients)[old(current.value)].chatId, false, false)]
        && current.None? && !isWsConnected
      ensures !(old(cleanupRegistered) && old(RefActive())) ==>
        clients == old(clients) && current == old(current) && isWsConnected == old(isWsConnected)
    {
      if cleanupRegistered {
        if RefActive() {
          Deactivate(current.value);
          current := None;
          isWsConnected := false;
        }
        cleanupRegistered := false;
      }
    }

    /**
     * One run of the connection effect after a change of the chat or the
     * token: the previous run's cleanup first (it deactivates and forgets an
     * active client), then the body. Without an active chat, a token or
     * with the chat expired, any active client is deactivated; with a client
     * still active nothing happens; otherwise a new client for the chat is
     * created and becomes the ref, and a cleanup is registered.
     */
    method RunConnectionEffect(token: Option<string>) returns (path: EffectPath)
      requires Valid()
      modifies this
      ensures Valid() && (path != AlreadyActive ==> CleanupCovers())
      ensures chatDetails == old(chatDetails) && messages == old(messages) && error == old(error)
      ensures loading == old(loading) && chatExpired == old(chatExpired)
      ensures path == Created <==>
        chatDetails.Some? && chatDetails.value.active && Truthy(token) && !chatExpired
        && (old(cleanupRegistered) || !old(RefActive()))
      ensures path == Created ==>
        |clients| == |old(clients)| + 1 && clients[|old(clients)|] == Conn(chatDetails.value.id, true, false)
        && current == Some(|old(clients)|) && connecting && cleanupRegistered
        && forall i :: 0 <= i < |old(clients)| ==> !clients[i].active
      ensures path != Created ==> |clients| == |old(clients)| && !cleanupRegistered
      ensures !(chatDetails.Some? && chatDetails.value.active && Truthy(token) && !chatExpired) ==>
        path == Skipped && forall i :: 0 <= i < |clients| ==> !clients[i].active
      ensures path == Created ==> clients == old(RefDeactivated()) + [Conn(chatDetails.value.id, true, false)]
      ensures old(CleanupCovers()) ==> path != AlreadyActive
      ensures old(CleanupCovers()) && path == Skipped ==>
        clients == old(RefDeactivated()) && current == (if old(RefActive()) then None else old(current))
    {
      RunCleanup();
      if chatDetails.None? || !chatDetails.value.active || !Truthy(token) || chatExpired {
        if RefActive() {
          Deactivate(current.value);
        }
        return Skipped;
      }
      if RefActive() {
        return AlreadyActive;
      }
      connecting := true;
      clients := clients + [Conn(chatDetails.value.id, true, false)];
      current := Some(|clients| - 1);
      cleanupRegistered := true;
      return Created;
    }

    /** `onConnect`: the client is connected and subscribes to its chat's topic and the user's error queue. */
    method OnConnect(i: nat) returns (subscriptions: seq<string>)
      requires Valid() && i < |clients| && clients[i].active
      modifies this
      ensures Valid() && (old(CleanupCovers()) ==> CleanupCovers())
      ensures clients == old(clients)[i := Conn(old(clients)[i].chatId, true, true)]
      ensures !connecting && isWsConnected
      ensures subscriptions == [Constants.ChatTopicPrefix + IdText(clients[i].chatId), Constants.UserErrorsQueue]
      ensures chatDetails == old(chatDetails) && messages == old(messages) && error == old(error)
      ensures current == old(current) && chatExpired == old(chatExpired) && cleanupRegistered == old(cleanupRegistered)
      ensures loading == old(loading)
    {
      connecting := false;
      isWsConnected := true;
      clients := clients[i := Conn(clients[i].chatId, true, true)];
      subscriptions := [ChatTopic(clients[i].chatId), "/user/queue/errors"];
      Constants.UserErrorsQueueValue();
    }

    /** A frame on the chat topic: its parsed message is appended; a body that does not parse is ignored. */
    method OnChatFrame(i: nat, parsed: Option<Message>)
      requires Valid() && i < |clients| && clients[i].connected
      modifies this
      ensures messages == AppendFrame(old(messages), parsed)
      ensures chatDetails == old(chatDetails) && error == old(error) && loading == old(loading)
      ensures connecting == old(connecting) && isWsConnected == old(isWsConnected) && clients == old(clients)
      ensures current == old(current) && chatExpired == old(chatExpired) && cleanupRegistered == old(cleanupRegistered)
      ensures Valid() && (old(CleanupCovers()) ==> CleanupCovers())
    {
      if parsed.Some? {
        messages := messages + [parsed.value];
      }
    }

    /** A frame on the user's error queue becomes the page error. */
    method OnErrorQueueFrame(i: nat, body: string)
      requires Valid() && i < |clients| && clients[i].connected
      modifies this
      ensures error == ErrorQueuePrefix + body
      ensures chatDetails == old(chatDetails) && messages == old(messages) && loading == old(loading)
      ensures connecting == old(connecting) && isWsConnected == old(isWsConnected) && clients == old(clients)
      ensures current == old(current) && chatExpired == old(chatExpired) && cleanupRegistered == old(cleanupRegistered)
      ensures Valid() && (old(CleanupCovers()) ==> CleanupCovers())
    {
      error := ErrorQueuePrefix + body;
    }

    /**
     * `onStompError`: the broker sent an ERROR frame and closed the
     * connection. The page shows the frame's `message` header (or "Broker
     * error"); when it names an authentication failure the user is logged out
     * and sent to the login page, replacing the history entry.
     */
    method OnStompError(i: nat, headerMessage: Option<string>, locationPath: string) returns (reaction: StompErrorReaction)
      requires Valid() && i < |clients| && clients[i].active
      modifies this
      ensures Valid() && (old(CleanupCovers()) ==> CleanupCovers())
      ensures clients == old(clients)[i := Conn(old(clients)[i].chatId, true, false)]
      ensures !connecting && !isWsConnected
      ensures error == BrokerErrorPrefix + OrElse(headerMessage, BrokerErrorFallback)
      ensures reaction == StompErrorReactionTo(OrElse(headerMessage, BrokerErrorFallback), locationPath)
      ensures chatDetails == old(chatDetails) && messages == old(messages) && loading == old(loading)
      ensures current == old(current) && chatExpired == old(chatExpired) && cleanupRegistered == old(cleanupRegistered)
    {
      OnDisconnect(i);
      var message := OrElse(headerMessage, BrokerErrorFallback);
      error := BrokerErrorPrefix + message;
      reaction := StompErrorReactionTo(message, locationPath);
    }

    /** `onWebSocketError`: the transport failed; the error is shown unless the chat has expired. */
    method OnWebSocketError(i: nat)
      requires Valid() && i < |clients|
      modifies this
      ensures Valid() && (old(CleanupCovers()) ==> CleanupCovers())
      ensures clients == old(clients)[i := Conn(old(clients)[i].chatId, old(clients)[i].active, false)]
      ensures !connecting && !isWsConnected
      ensures error == if old(chatExpired) then old(error) else ConnectionLostText
      ensures chatDetails == old(chatDetails) && messages == old(messages) && loading == old(loading)
      ensures current == old(current) && chatExpired == old(chatExpired) && cleanupRegistered == old(cleanupRegistered)
    {
      connecting := false;
      isWsConnected := false;
      clients := clients[i := Conn(clients[i].chatId, clients[i].active, false)];
      if !chatExpired {
        error := ConnectionLostText;
      }
    }

    /** `onDisconnect`: the page shows itself disconnected. */
    method OnDisconnect(i: nat)
      requires Valid() && i < |clients|
      modifies this
      ensures Valid() && (old(CleanupCovers()) ==> CleanupCovers())
      ensures clients == old(clients)[i := Conn(old(clients)[i].chatId, old(clients)[i].active, false)]
      ensures !connecting && !isWsConnected
      ensures chatDetails == old(chatDetails) && messages == old(messages) && error == old(error) && loading == old(loading)
      ensures current == old(current) && chatExpired == old(chatExpired) && cleanupRegistered == old(cleanupRegistered)
    {
      connecting := false;
      isWsConnected := false;
      clients := clients[i := Conn(clients[i].chatId, clients[i].active, false)];
    }

    /**
     * `handleSendMessage(text, type = 'TEXT', imageUrl = null)`: with the ref's
     * client connected and the chat active, the payload is published to the
     * chat's send destination (a publish that throws sets an error instead);
     * otherwise nothing is published and an error is set.
     */
    method HandleSendMessage(text: Option<string>, messageType: string := "TEXT", imageUrl: Option<string> := None,
                             publishThrows: bool := false) returns (published: Option<Publish>)
      requires Valid()
      modifies this
      ensures var canSend := old(current).Some? && old(clients)[old(current).value].connected
                             && old(chatDetails).Some? && old(chatDetails).value.active;
        && (canSend && !publishThrows ==>
              published == Some(Publish(Constants.SendMessageEndpoint(old(chatDetails).value.id),
                                         BuildPayload(text, messageType, imageUrl)))
              && error == old(error))
        && (canSend && publishThrows ==> published.None? && error == SendFailedText)
        && (!canSend ==> published.None? && error == NotConnectedText)
      ensures Valid() && (old(CleanupCovers()) ==> CleanupCovers())
      ensures chatDetails == old(chatDetails) && messages == old(messages) && loading == old(loading)
      ensures connecting == old(connecting) && isWsConnected == old(isWsConnected) && clients == old(clients)
      ensures current == old(current) && chatExpired == old(chatExpired) && cleanupRegistered == old(cleanupRegistered)
    {
      published := None;
      if current.Some? && clients[current.value].connected && chatDetails.Some? && chatDetails.value.active {
        var payload := BuildPayload(text, messageType, imageUrl);
        if publishThrows {
          error := SendFailedText;
        } else {
          published := Some(Publish(SendDestination(chatDetails.value.id), payload));
        }
      } else {
        error := NotConnectedText;
      }
    }

    /**
     * `handleLeaveChat()`: without a chat nothing happens. Otherwise, once
     * the leave call succeeds, any active client is deactivated and the page
     * goes home; a failure keeps the chat and sets the error.
     */
    method HandleLeaveChat(outcome: ActionOutcome) returns (navigation: Option<Navigation>)
      requires Valid()
      modifies this
      ensures Valid() && (old(CleanupCovers()) ==> CleanupCovers())
      ensures chatDetails == old(chatDetails) && messages == old(messages)
      ensures connecting == old(connecting) && isWsConnected == old(isWsConnected) && current == old(current)
      ensures chatExpired == old(chatExpired) && cleanupRegistered == old(cleanupRegistered)
      ensures old(chatDetails).None? ==>
        navigation.None? && error == old(error) && loading == old(loading) && clients == old(clients)
      ensures old(chatDetails).Some? ==> !loading
      ensures old(chatDetails).Some? && outcome.Succeeded? ==>
        navigation == Some(GoTo("/")) && error == old(error)
        && clients == old(RefDeactivated()) && forall i :: 0 <= i < |clients| ==> !clients[i].active
      ensures old(chatDetails).Some? && outcome.ActionFailed? ==>
        navigation.None? && error == ServerMessageOr(outcome.error, LeaveFailedText) && clients == old(clients)
    {
      if chatDetails.None? {
        return None;
      }
      loading := true;
      navigation := None;
      match outcome {
        case Succeeded =>
          if RefActive() {
            Deactivate(current.value);
          }
          navigation := Some(GoTo("/"));
        case ActionFailed(e) =>
          error := ServerMessageOr(e, LeaveFailedText);
      }
      loading := false;
    }

    /**
     * `handleChatExpired()`: the error says the chat expired, the chat is
     * marked inactive, the expired flag is set and any active client is
     * deactivated. The messages stay.
     */
    method HandleChatExpired()
      requires Valid()
      modifies this
      ensures Valid() && (old(CleanupCovers()) ==> CleanupCovers())
      ensures error == ChatExpiredText && chatExpired
      ensures old(chatDetails).None? ==> chatDetails.None?
      ensures old(chatDetails).Some? ==> chatDetails == Some(old(chatDetails).value.(active := false))
      ensures clients == old(RefDeactivated()) && forall i :: 0 <= i < |clients| ==> !clients[i].active
      ensures messages == old(messages) && loading == old(loading)
      ensures connecting == old(connecting) && isWsConnected == old(isWsConnected)
      ensures current == old(current) && cleanupRegistered == old(cleanupRegistered)
    {
      error := ChatExpiredText;
      if chatDetails.Some? {
        chatDetails := Some(chatDetails.value.(active := false));
      }
      chatExpired := true;
      if RefActive() {
        Deactivate(current.value);
      }
    }
  }
}
