# TwentyThree chat client — a verified model of its decision logic

TwentyThree is a web client for short-lived group chats. Chats are built
around interests. A signed-in user creates a chat for an interest or joins
one. Inside a chat, text and image messages travel over a STOMP connection.
When the chat's expiry time arrives, the chat closes.

This project models the client's logic in Dafny: every branch that decides
what the user sees or what the client sends. Time, the network and the
browser are inputs.

- **Shared pieces.**
  - `Common`: optional values and JavaScript truthiness.
  - `Strings`: the JavaScript string operations the client relies on, with their laws. These are `trim`, `indexOf`/`includes`, first-match `replace`, `padStart`, `join`, `String(n)` and `parseInt`.
  - `Domain`: identifiers, messages, chats, interests, files, HTTP errors, navigation requests and the create-chat request.
  - `Constants`: the STOMP destinations and limits.
- **Pure functions.**
  - `Helpers`: image URLs, message ownership and truncation.
  - `Alert`: the error-message cascade of the alert component.
  - `MessageList`: per-message rendering decisions.
- **Classes.** Each component that keeps state is a class whose fields are that state, with methods for its handlers:
  - `Auth.AuthProvider`: the authentication context.
  - `ChatPage.Page`: the chat session.
  - `Timer.ChatTimer`: the countdown.
  - `MessageInput.Composer`: the message input.
  - `ProfileEdit.ProfileEditForm`: the profile edit form.
  - `Register.RegisterForm`: the registration form.
  - `LoginForm.LoginFormState`: the login form.
  - `ProfilePage.ProfilePageState`: the profile page.
  - `HomePage.Home`: the home page.
  - `CreateChat.CreateChatForm`: the create-chat page.
- **How outside events enter.**
  - An awaited HTTP call becomes a parameter holding its outcome: a result or an `HttpError`.
  - A React effect re-run or an interval tick becomes an explicit method call.
  - The STOMP client is abstract. The chat page keeps one record per client it created, holding the client's chat and its `active`/`connected` flags. Library callbacks are methods that name the reporting client.

Behaviour the proofs make explicit:

- The chat page publishes an image message with `contentText` null, so a
  caption handed to it never reaches the server
  (`ChatPage.ImageCaptionNeverSent`). The message input does pass one.
- The message list and `isMessageFromCurrentUser` decide ownership
  differently:
  - The list compares strictly and accepts a nickname match even when the ids differ.
  - The helper compares the ids as text and ignores nicknames when both ids are present.
  - A sender id `"5"` belongs to user `5` for the helper but not for the list (`MessageList.OwnershipRulesDisagreeOnIdKind`). The two agree under the conditions of `MessageList.OwnershipRulesAgree`.
- Registration checks the untrimmed nickname, but the profile form checks
  the trimmed one. So `"   "` registers but cannot be saved as a profile
  nickname (`Register.NicknameRulesDiffer`).
- The connection effect's guards at `src/pages/ChatPage.js:97-99` and `:102`
  act on a client that is still active in the ref. While the cleanup
  invariant holds, the previous cleanup has always deactivated that client
  already, so neither guard can fire. Two `ensures` of
  `ChatPage.Page.RunConnectionEffect` state this: the early return at `:102`
  is never taken, and on the skipped path the clients and the ref are
  exactly what the cleanup left, so the deactivation at `:97-99` changes
  nothing. There is no epoch or generation
  guard and no reconnect loop of the page's own. Reconnecting is left to the
  library.
- An expiry text that `parseISO` cannot read yields `NaN` seconds. The timer
  then shows `Time left: NaN:NaN:NaN`, never expires and keeps ticking
  (`Timer.CalculateTimeLeft`, `Timer.RenderTimer`).

Behaviour worth noting:

- A send attempt while the page has no connected client, or while the chat
  is inactive, sets the page-wide error (`src/pages/ChatPage.js:202-204`,
  `ChatPage.Page.HandleSendMessage`).
- A broker authorization error logs the user out and redirects to the login
  page, but the handler does not close the client itself
  (`src/pages/ChatPage.js:143-150`, `ChatPage.Page.OnStompError`). The client
  is deactivated when the connection effect next runs without a token.
- A missing or inactive chat clears the chat and is followed by a redirect
  home after three seconds (`src/pages/ChatPage.js:71-76`,
  `ChatPage.Page.FetchChatData`).

## Model

| member | source | states |
|---|---|---|
| Common.OrElse | src/components/chat/MessageList.js:51 | `a \|\| b` on optional text: the first value when it is truthy, else the second |
| Strings.Trim | src/components/chat/MessageInput.js:16 | the result has no leading or trailing whitespace and is the slice of the input between them; all-whitespace input gives "" |
| Strings.TrimEmptyIff | src/components/chat/MessageInput.js:16 | a string trims to "" exactly when every character is whitespace, so the empty-message guard rejects exactly the all-whitespace inputs |
| Strings.TrimIdempotent | src/components/profile/ProfileEditForm.js:54-58 | trimming twice equals trimming once, so re-validating a trimmed nickname changes nothing |
| Strings.IndexOf | src/pages/ChatPage.js:143 | `indexOf`: a position where the needle occurs with no occurrence before it, or -1 |
| Strings.IncludesIff | src/pages/ChatPage.js:143 | `includes` holds exactly when some position holds the needle, so -1 from `indexOf` means no occurrence at all |
| Strings.ReplaceFirst | src/utils/helpers.js:44 | without an occurrence the text is unchanged; otherwise the first occurrence is replaced and the text before and after it is kept |
| Strings.PadStart | src/components/chat/ChatTimer.js:66-68 | the result is at least the target length, ends with the input and is padded only with the fill character |
| Strings.Join | src/components/common/AlertMessage.js:25 | joining no parts gives "", joining one gives that part |
| Strings.JoinCons | src/components/common/AlertMessage.js:25 | joining a longer list is the first part, the separator, then the join of the rest |
| Strings.NatToString | src/components/chat/MessageList.js:33 | decimal digits only, at least one, no leading zero except for 0 |
| Strings.IntToString | src/pages/HomePage.js:60 | `String(n)`: non-empty, with a leading '-' exactly for negative numbers |
| Strings.ValueOfNatToString | src/pages/HomePage.js:60 | the digits of `String(n)` have value n |
| Strings.ParseIntOfIntToString | src/pages/HomePage.js:118 | `parseInt(String(n))` is n: the selected interest id survives the round trip |
| Strings.IntToStringInjective | src/components/chat/MessageList.js:33 | different numbers have different decimal texts |
| Strings.ParseIntOfDigits | src/pages/CreateChatPage.js:52 | `parseInt` of a digit string is its value |
| Domain.ServerMessageOr | src/pages/HomePage.js:65 | the server's message when it is truthy, else the fallback |
| Domain.ErrorTextOr | src/components/auth/RegisterForm.js:45 | the server's message, else the error's own message, else the fallback |
| Domain.BuildCreateChatRequest | src/pages/HomePage.js:116-119 | chatName is null exactly when the name is all whitespace, else the trimmed name; primaryInterestId is `parseInt` of the selection |
| Domain.DefaultInterestId | src/pages/HomePage.js:58-61 | a selection is preset exactly when the list is non-empty |
| Domain.DefaultSelectionRoundTrip | src/pages/CreateChatPage.js:26-27 | creating a chat with the preset selection sends the first interest's id unchanged |
| Domain.DefaultIsOffered | src/pages/CreateChatPage.js:27 | the preset selection is one of the select's options |
| Domain.OfferedSelectionNamesListedInterest | src/pages/CreateChatPage.js:50-53 | any selectable option makes the request name the id of a listed interest |
| Constants.SendMessageEndpoint | src/utils/constants.js:7-8 | the destination is "/app/chat/", the chat id's text, then "/send" |
| Constants.SendMessageEndpointInjective | src/utils/constants.js:8 | two chats share a send destination exactly when their ids have the same text |
| Constants.DistinctNumericChatsDistinctEndpoints | src/utils/constants.js:8 | distinct numeric chat ids give distinct send destinations |
| Constants.UserErrorsQueueValue | src/utils/constants.js:5-6 | the user error queue is "/user/queue/errors" |
| Constants.MessageTypesDistinct | src/utils/constants.js:19-24 | TEXT, IMAGE, JOIN and LEAVE are four distinct values |
| Helpers.ServerBase | src/utils/helpers.js:43-45 | the configured URL with its first "/api" removed, or "http://localhost:8080" when none is configured |
| Helpers.GetFullImageUrl | src/utils/helpers.js:32-51 | null for an empty or null input; absolute http, https and blob URLs unchanged; otherwise the server base followed by the path with exactly one leading '/' |
| Helpers.FullImageUrlPath | src/utils/helpers.js:48-50 | a relative result starts with the server base and continues with a '/' |
| Helpers.PrefixKept | src/utils/helpers.js:50 | appending to a text keeps its prefix, so an http(s) base gives an http(s) result |
| Helpers.GetFullImageUrlIdempotent | src/utils/helpers.js:36-38 | with an http(s) server base, applying the function to its own result changes nothing |
| Helpers.IsMessageFromCurrentUser | src/utils/helpers.js:61-71 | false without a message; with both ids present, equality of their texts; otherwise equality of present nicknames, else false |
| Helpers.OwnershipIgnoresNicknames | src/utils/helpers.js:63-66 | when both ids are present the nickname does not affect the result |
| Helpers.OwnershipAcrossIdRepresentations | src/utils/helpers.js:65 | a numeric user id matches the same id sent as a string |
| Helpers.TruncateText | src/utils/helpers.js:80-86 | "" for an empty or missing text; the text itself up to the limit; beyond it the first maxLength characters and "..." |
| Helpers.TruncateDefaultLimit | src/utils/helpers.js:80 | the default limit is 100 |
| Alert.DisplayMessage | src/components/common/AlertMessage.js:15-38 | a plain message as it is; otherwise the server's message string, else a string body, else the validation errors joined by ". ", else a generic text; without a body the error's message, else its JSON text, else a fixed text |
| Alert.Render | src/components/common/AlertMessage.js:11-52 | hidden exactly when show is false or the message is falsy; otherwise the variant, the display text, and dismissible exactly when onClose is given |
| Alert.PlainTextShownVerbatim | src/components/common/AlertMessage.js:15-18 | a non-empty string message is shown unchanged, and an empty one hides the alert |
| Alert.ServerMessageWins | src/components/common/AlertMessage.js:19-21 | the server's message string wins over every other source |
| MessageList.ItemKey | src/components/chat/MessageList.js:33 | the message id's text when truthy, else "msg-" and the index |
| MessageList.BodyOf | src/components/chat/MessageList.js:56-70 | a text body exactly for TEXT with text; an image exactly for IMAGE with a URL, with a caption exactly when text is present |
| MessageList.RenderItem | src/components/chat/MessageList.js:26-53 | own side by the nickname-or-id rule; a sender header exactly for other people's messages, with avatar fallback and "Unknown User" |
| MessageList.RenderList | src/components/chat/MessageList.js:17-23 | the placeholder exactly for a null or empty list; otherwise one item per message in list order |
| MessageList.IndexKeysDistinct | src/components/chat/MessageList.js:33 | messages without ids at different positions get different keys |
| MessageList.OwnershipRulesDisagreeOnIdKind | src/components/chat/MessageList.js:26-27 | a string sender id equal in text to the numeric user id is own for the helper but not for the list |
| MessageList.OwnershipRulesAgree | src/components/chat/MessageList.js:26-27 | the list rule and the helper agree when both ids are present and of one kind and a nickname match implies an id match |
| Timer.DifferenceInSeconds | src/components/chat/ChatTimer.js:22 | whole seconds between two instants, truncated toward zero |
| Timer.DecomposeSeconds | src/components/chat/ChatTimer.js:28-33 | hours*3600 + minutes*60 + seconds equals the total, with minutes and seconds below 60 |
| Timer.CalculateTimeLeft | src/components/chat/ChatTimer.js:19-34 | null without a timestamp; NaN fields for an unreadable date; all zeros once at most zero seconds remain; otherwise a decomposition of the remaining seconds |
| Timer.ExpiredIffUnderOneSecond | src/components/chat/ChatTimer.js:24-26 | the countdown reads expired exactly when less than one second remains |
| Timer.TimeLeftNonIncreasing | src/components/chat/ChatTimer.js:49-51 | a later tick never shows more remaining time |
| Timer.ExpiryIsFinal | src/components/chat/ChatTimer.js:40-46 | once expired, every later tick is expired too |
| Timer.TwoDigits | src/components/chat/ChatTimer.js:66-68 | at least two digits, with a leading '0' exactly below 10, and exactly two below 100 |
| Timer.TwoDigitsReadsBack | src/components/chat/ChatTimer.js:66-68 | the padded field parses back to its number |
| Timer.CountdownText | src/components/chat/ChatTimer.js:72 | the badge text starts with "Time left: " |
| Timer.RenderTimer | src/components/chat/ChatTimer.js:57-74 | nothing without a time left or a timestamp; the expired badge exactly at zero; otherwise the padded countdown, "NaN" fields for an unreadable date |
| Timer.ThreeFields | src/components/chat/ChatTimer.js:72 | the three two-character fields sit at fixed positions of the badge text |
| Timer.CountdownTextReadsBack | src/components/chat/ChatTimer.js:66-72 | the hours, minutes and seconds parse back from the badge text |
| Timer.CountdownReadsBack | src/components/chat/ChatTimer.js:28-33 | below 100 hours, the badge text reads back as a decomposition of the remaining seconds (the badge is drawn at lines 66-72) |
| Timer.ChatTimer.constructor | src/components/chat/ChatTimer.js:36-46 | the first time left is computed from the clock; an interval is scheduled exactly when not expired; the callback fires once if already expired |
| Timer.ChatTimer.RunEffect | src/components/chat/ChatTimer.js:38-55 | the effect schedules a tick exactly when time remains and calls onChatExpired exactly when expired and a callback exists |
| Timer.ChatTimer.Tick | src/components/chat/ChatTimer.js:49-51 | the time left is recomputed; ticking stops exactly at expiry, when the callback fires at most once |
| Timer.ChatTimer.View | src/components/chat/ChatTimer.js:57-63 | nothing exactly without a timestamp; the expired badge exactly when ticking has stopped |
| Auth.StoredToken | src/contexts/AuthContext.js:11 | `localStorage.getItem('token')`: present exactly when the key is stored, with its value |
| Auth.BearerHeader | src/contexts/AuthContext.js:14-20 | a header exactly for a truthy token, "Bearer " and the token |
| Auth.MergeUser | src/contexts/AuthContext.js:105-107 | the update's fields override, the others are kept; with no previous user the update is the user |
| Auth.MergeUserIdempotent | src/contexts/AuthContext.js:106 | applying the same update twice is applying it once |
| Auth.MergeUserEmptyUpdate | src/contexts/AuthContext.js:106 | an empty update keeps the user |
| Auth.AuthProvider.constructor | src/contexts/AuthContext.js:11-12 | the token is read from storage; no user; loading |
| Auth.AuthProvider.ApplyTokenToApiClient | src/contexts/AuthContext.js:14-20 | the header becomes the bearer header of the token, or is removed |
| Auth.AuthProvider.FetchCurrentUserDetails | src/contexts/AuthContext.js:22-45 | without a token no user and no header; success sets the user; failure clears user, state token, stored token and header; loading ends on every path |
| Auth.AuthProvider.InitialLoad | src/contexts/AuthContext.js:48-78 | an unexpired stored token is kept and the user fetched; an expired or undecodable one is removed everywhere; without one no user and no header; the header then matches the token |
| Auth.AuthProvider.Login | src/contexts/AuthContext.js:81-94 | a falsy token is rejected with nothing changed; otherwise it is stored and the result is that of the user fetch |
| Auth.AuthProvider.Logout | src/contexts/AuthContext.js:96-103 | the token leaves storage, state and header and the user is cleared |
| Auth.AuthProvider.UpdateUserContext | src/contexts/AuthContext.js:105-107 | the user becomes the merge of the previous user and the update |
| ChatPage.LoadErrorText | src/pages/ChatPage.js:72 | the expired text exactly when a chat came back inactive, the no-chat text exactly when none came back |
| ChatPage.ChatPath | src/pages/ChatPage.js:56 | "/chat" followed by "/id" when an id is in the URL |
| ChatPage.ChatTopic | src/pages/ChatPage.js:120 | the subscribed topic is the chat topic prefix constant followed by the chat id |
| ChatPage.SendDestination | src/pages/ChatPage.js:195 | the publish destination is the send endpoint constant for the chat |
| ChatPage.BuildPayload | src/pages/ChatPage.js:188-192 | the text is carried only for TEXT and the image URL only for IMAGE |
| ChatPage.ImageCaptionNeverSent | src/pages/ChatPage.js:190 | an image payload never carries text, whatever caption was given |
| ChatPage.AppendFrame | src/pages/ChatPage.js:120-126 | a parsed frame is appended at the end with earlier messages and order kept; an unparsable one changes nothing |
| ChatPage.FramesExtendHistory | src/pages/ChatPage.js:120-126 | after any run of frames the list is the fetched history followed by the parsed messages in arrival order (the history is fetched at lines 77-79) |
| ChatPage.Page.constructor | src/pages/ChatPage.js:29-37 | the initial hook state: no chat, no messages, loading, no client |
| ChatPage.Page.Deactivate | src/pages/ChatPage.js:175 | the client stops and drops its connection; nothing else changes (the same call recurs at lines 98, 214 and 231) |
| ChatPage.Page.FetchChatData | src/pages/ChatPage.js:52-87 | without a user a redirect to login; a missing or inactive chat clears the chat with the matching error; an active one is stored and the messages replaced by the history or []; a failure clears the chat with the server message or the default |
| ChatPage.Page.RunCleanup | src/pages/ChatPage.js:173-179 | a registered cleanup deactivates and forgets an active client in the ref and shows the page disconnected; afterwards no client in the ref is active and no cleanup remains registered; without one nothing changes |
| ChatPage.Page.RunConnectionEffect | src/pages/ChatPage.js:95-182 | a client is created exactly when the chat is present and active, a token is present, not expired, and no active client remains; a created client is appended after the earlier clients, which are unchanged apart from the ref's deactivation; otherwise any active client is deactivated; under the cleanup invariant neither guard at lines 97-99 and 102 changes anything |
| ChatPage.Page.OnConnect | src/pages/ChatPage.js:115-132 | the client is connected and subscribes to its chat's topic and the user error queue |
| ChatPage.Page.OnChatFrame | src/pages/ChatPage.js:120-126 | the list becomes the appended list of the frame |
| ChatPage.Page.OnErrorQueueFrame | src/pages/ChatPage.js:128-131 | the error becomes "Chat Error: " and the body |
| ChatPage.StompErrorReactionTo | src/pages/ChatPage.js:143-150 | logout and a replacing redirect to login (remembering the location, with the session-expired text) exactly when the message names an authentication failure; otherwise no reaction |
| ChatPage.Page.OnStompError | src/pages/ChatPage.js:134-151 | disconnected with the broker message as error; an auth-failure message asks for logout and a replacing redirect to login; any other asks for nothing |
| ChatPage.Page.OnWebSocketError | src/pages/ChatPage.js:153-161 | disconnected; the connection-lost text unless the chat has expired |
| ChatPage.Page.OnDisconnect | src/pages/ChatPage.js:163-168 | disconnected, nothing else changes |
| ChatPage.Page.HandleSendMessage | src/pages/ChatPage.js:185-205 | publishes the payload to the chat's send endpoint exactly when the ref client is connected and the chat active; otherwise sets the not-connected error; a throwing publish sets the send error |
| ChatPage.Page.HandleLeaveChat | src/pages/ChatPage.js:207-223 | no chat, nothing happens; success deactivates exactly the ref's active client, leaves every other client as it was, and goes home; failure keeps the chat and the clients and sets the error |
| ChatPage.Page.HandleChatExpired | src/pages/ChatPage.js:225-233 | the error is set, the chat marked inactive, expiry flagged; exactly the ref's active client is deactivated and every other client is left as it was, so none is active; messages untouched |
| MessageInput.ChatImageLimitMatchesConstant | src/components/chat/MessageInput.js:35 | the chat image limit equals the configured maximum upload size in bytes |
| MessageInput.ValidateChatImage | src/components/chat/MessageInput.js:27-41 | accepted exactly when an image type of at most 10 MiB; the type error first, then the size error |
| MessageInput.ChatImageSizeBoundary | src/components/chat/MessageInput.js:35 | exactly 10 MiB is accepted and one byte more rejected |
| MessageInput.Composer.constructor | src/components/chat/MessageInput.js:7-11 | empty text, no file, no preview, not uploading, no error |
| MessageInput.Composer.SetMessageText | src/components/chat/MessageInput.js:7 | the text field changes and nothing else |
| MessageInput.Composer.HandleTextSubmit | src/components/chat/MessageInput.js:14-21 | all-whitespace text sends nothing and changes nothing; otherwise the trimmed text is sent as TEXT and text and error are cleared |
| MessageInput.Composer.HandleImageFileChange | src/components/chat/MessageInput.js:23-46 | no file changes nothing; a rejected file clears file and preview and sets the error; an accepted one is stored with its preview and the error cleared |
| MessageInput.Composer.HandleImageUploadAndSend | src/components/chat/MessageInput.js:48-75 | without a file or chat an error and no upload; an uploaded URL is sent as IMAGE with the returned text and the file cleared; otherwise the file is kept and the error set |
| MessageInput.Composer.RemoveImagePreview | src/components/chat/MessageInput.js:81-86 | file, preview and error are cleared |
| ProfileEdit.Dedup | src/components/profile/ProfileEditForm.js:8 | `new Set(ids)`: no duplicates, the same members, never longer |
| ProfileEdit.DedupOfDistinct | src/components/profile/ProfileEditForm.js:8 | a list without duplicates is its own set |
| ProfileEdit.Remove | src/components/profile/ProfileEditForm.js:41 | exactly the id is removed, the rest kept without duplicates |
| ProfileEdit.Toggle | src/components/profile/ProfileEditForm.js:38-46 | the id becomes present exactly when it was absent; every other id is unchanged |
| ProfileEdit.ToggleTwice | src/components/profile/ProfileEditForm.js:38-46 | toggling twice restores the same set |
| ProfileEdit.RemoveLast | src/components/profile/ProfileEditForm.js:41-43 | removing an id that was just added restores the list |
| ProfileEdit.ValidateNickname | src/components/profile/ProfileEditForm.js:54-61 | the empty error exactly for all-whitespace; the length error exactly when the trimmed length is outside 3..50; otherwise accepted |
| ProfileEdit.ProfileEditForm.constructor | src/components/profile/ProfileEditForm.js:6-11 | nickname from the initial data or ""; the selection is the set of the initial ids |
| ProfileEdit.ProfileEditForm.SyncInitialData | src/components/profile/ProfileEditForm.js:13-17 | nickname and selection are reset from the initial data |
| ProfileEdit.ProfileEditForm.LoadInterests | src/components/profile/ProfileEditForm.js:19-35 | the list becomes the data or []; failure sets the error; loading ends |
| ProfileEdit.ProfileEditForm.SetNickname | src/components/profile/ProfileEditForm.js:6 | the nickname changes and nothing else |
| ProfileEdit.ProfileEditForm.HandleInterestChange | src/components/profile/ProfileEditForm.js:38-46 | the selection becomes its toggle by the id |
| ProfileEdit.ProfileEditForm.HandleSubmit | src/components/profile/ProfileEditForm.js:49-69 | the error is cleared first; an invalid nickname sets its error and submits nothing; a valid form submits the trimmed nickname and each selected id once |
| Register.ValidateRegistration | src/components/auth/RegisterForm.js:20-31 | mismatch first, then password length below 6, then untrimmed nickname length below 3; accepted exactly when none applies |
| Register.NicknameRulesDiffer | src/components/auth/RegisterForm.js:28 | a nickname of three spaces registers but fails the profile nickname check |
| Register.RegisterForm.constructor | src/components/auth/RegisterForm.js:7-12 | empty fields, no error, no success, not loading |
| Register.RegisterForm.SetFields | src/components/auth/RegisterForm.js:7-9 | the three fields change and nothing else |
| Register.RegisterForm.HandleSubmit | src/components/auth/RegisterForm.js:15-50 | error and success are cleared; a validation failure sets its error with no call; success sets the message with " You can now log in.", clears the fields and heads to login; failure sets the error cascade |
| LoginForm.FromPath | src/components/auth/LoginForm.js:16 | the `from` pathname when truthy, else "/" |
| LoginForm.ReturnsToChat | src/components/auth/LoginForm.js:16 | a visitor sent from a chat path returns to it |
| LoginForm.LoginFormState.constructor | src/components/auth/LoginForm.js:8-11 | empty fields, no error, not loading |
| LoginForm.LoginFormState.HandleSubmit | src/components/auth/LoginForm.js:18-48 | a token and a user navigate to `from` with replace; a token without a user sets an error; no token sets an error and skips login; a failed request sets the error cascade; loading ends on every path |
| ProfilePage.ValidateAvatar | src/pages/ProfilePage.js:75-86 | accepted exactly when an image type of at most 5 MiB; the type error first, then the size error |
| ProfilePage.AvatarSizeBoundary | src/pages/ProfilePage.js:81 | exactly 5 MiB is accepted and one byte more rejected |
| ProfilePage.RenderState | src/pages/ProfilePage.js:117-138 | the session spinner exactly while auth loads; the profile spinner while the page loads or with neither profile nor error; the error view with its text; the profile exactly when loaded without error |
| ProfilePage.AvatarUpdate | src/pages/ProfilePage.js:100 | the context update holds only the picture URL of the returned profile |
| ProfilePage.AvatarUploadKeepsOtherFields | src/pages/ProfilePage.js:100 | an avatar upload leaves every other field of the context user unchanged |
| ProfilePage.ProfilePageState.constructor | src/pages/ProfilePage.js:14-20 | no profile, page loading, no errors, no file, not editing |
| ProfilePage.ProfilePageState.View | src/pages/ProfilePage.js:117-145 | the profile is shown only when it is loaded and there is no error |
| ProfilePage.ProfilePageState.LoadProfile | src/pages/ProfilePage.js:23-43 | with a user id the profile is fetched, failure clears it with the error; without one after auth loading the not-authenticated error and no profile; while auth loads nothing |
| ProfilePage.ProfilePageState.SetEditMode | src/pages/ProfilePage.js:191-212 | edit mode changes; leaving it clears the update error |
| ProfilePage.ProfilePageState.HandleProfileUpdate | src/pages/ProfilePage.js:53-70 | no profile, nothing happens; success replaces the profile, merges it into the context and leaves edit mode; failure sets the update error |
| ProfilePage.ProfilePageState.HandleAvatarFileChange | src/pages/ProfilePage.js:72-90 | no file changes nothing; a rejected file clears the stored file with the error; an accepted one is stored and the error cleared |
| ProfilePage.ProfilePageState.HandleAvatarUpload | src/pages/ProfilePage.js:93-112 | without a file or profile nothing happens; success replaces the profile, merges only the picture URL into the context and clears the file; failure keeps the file and sets the error |
| HomePage.ActiveChatRedirect | src/pages/HomePage.js:29-49 | a replacing redirect to /chat exactly when a user is loaded and a current chat with a truthy id exists; no chat or any error, no redirect |
| HomePage.ZeroChatIdDoesNotRedirect | src/pages/HomePage.js:34 | a current chat whose id is 0 is falsy and does not redirect |
| HomePage.Home.constructor | src/pages/HomePage.js:15-26 | empty list and selections, closed dialogs, no errors, nothing loading |
| HomePage.Home.LoadInterests | src/pages/HomePage.js:52-69 | the list becomes the data or []; a non-empty list presets both selections to its first id; failure sets the page error; selections stay options |
| HomePage.Home.OpenJoinModal | src/pages/HomePage.js:76-79 | the join dialog opens with no error |
| HomePage.Home.OpenCreateModal | src/pages/HomePage.js:81-85 | the create dialog opens with an empty name and no error |
| HomePage.Home.HideModals | src/pages/HomePage.js:213 | the named dialogs close and nothing else changes (the same closing recurs at lines 244, 255 and 296) |
| HomePage.Home.SelectInterestToJoin | src/pages/HomePage.js:226 | the join selection becomes the picked option |
| HomePage.Home.SelectCreateInterest | src/pages/HomePage.js:278 | the create selection becomes the picked option |
| HomePage.Home.SetCreateChatName | src/pages/HomePage.js:267 | the chat name changes and nothing else |
| HomePage.Home.HandleJoinChat | src/pages/HomePage.js:87-105 | no selection, the dialog error and no call; otherwise the call names a listed interest; success goes to /chat; failure keeps the dialog open with the error |
| HomePage.Home.HandleCreateChat | src/pages/HomePage.js:107-128 | no selection, the dialog error and no call; otherwise the request is built from the name and selection and names a listed interest; success goes to /chat; failure keeps the dialog open with the error |
| CreateChat.PageGate | src/pages/CreateChatPage.js:63-68 | the form exactly with a user; otherwise a redirect to /login from /create-chat and nothing rendered |
| CreateChat.CreateChatForm.constructor | src/pages/CreateChatPage.js:13-18 | empty name, selection and list; no error; interests loading |
| CreateChat.CreateChatForm.LoadInterests | src/pages/CreateChatPage.js:20-35 | the list becomes the data or []; a non-empty list selects its first id; failure sets the error; loading ends |
| CreateChat.CreateChatForm.SetChatName | src/pages/CreateChatPage.js:85 | the name changes and nothing else |
| CreateChat.CreateChatForm.SelectInterest | src/pages/CreateChatPage.js:93-98 | the selection becomes the picked option; the placeholder only while nothing is selected |
| CreateChat.CreateChatForm.DismissError | src/pages/CreateChatPage.js:78 | the error is cleared |
| CreateChat.CreateChatForm.HandleSubmit | src/pages/CreateChatPage.js:41-61 | no selection, an error and no call; otherwise the request names a listed interest; success goes to /chat; failure sets the error |

## Left out

- The STOMP/SockJS client: handshake, heartbeats, the library's reconnect after 5000 ms, and what `activate`/`deactivate` do inside. It is network I/O and library concurrency. Clients are records with `active`/`connected` flags, and the library's callbacks are methods.
- The HTTP service wrappers (`apiClient.js`, `chatService.js`, `userService.js`, `authService.js`, `interestService.js`). Their results are parameters. One example: the current chat is null on 404 or 204. Another: `getAllInterests` catches every error and resolves with `[]` (`src/services/interestService.js:12-17`). So the interests-failure branches of `HomePage.Home.LoadInterests` and `CreateChat.CreateChatForm.LoadInterests` (the "Failed to load interests" text) and of `ProfileEdit.ProfileEditForm.LoadInterests` (the "Could not load available interests" text) are modelled as the components write them. With the wrapper as written they are unreachable.
- `formatTimeAgo`, `parseISO` and the wall clock. Instants are integer milliseconds. An expiry text is given already parsed: absent, unreadable, or an instant.
- `jwtDecode`, `localStorage`, `URL.createObjectURL`, `JSON.parse`/`JSON.stringify` and browser `File` objects. These are foreign APIs. Their results are parameters: the decoded `exp`, the storage map, the preview URL, the parsed frame, the JSON text, and a file as its type and size.
- The scheduling of React effects, and how interleaved asynchronous handlers behave. Each handler runs to completion with its call's outcome given. Effect re-runs and ticks are explicit method calls.
- The interval period, the 3000 ms redirect delays on the chat page and the registration form, and `alert()` notices on the profile page.
- Resetting file inputs through the DOM, scrolling, and all markup. That covers the profile edit form's and other components' JSX apart from the render choices modelled above, plus the files App.js, Navbar.js, ProtectedRoute.js and the other routing files.
- JavaScript string lengths count UTF-16 code units. Here a string is a sequence of characters. `parseInt` is exact on integers of any size; the double precision of JavaScript numbers is not modelled.
- Non-string JavaScript values where the code expects strings. Identifiers are numbers or strings, and JSON fields are undefined, null, strings or integers.
- Timer.CountdownReadsBack: holds for fewer than 100 hours remaining. Beyond that the hours field has more than two digits.
- ChatPage.Page.RunConnectionEffect: the guards at `src/pages/ChatPage.js:97-99,102` are modelled as written. That they cannot act is stated under the cleanup invariant, not as a precondition. For `:102`, the early return is never taken. For `:97-99`, the skipped path leaves the clients and the ref exactly as the cleanup left them.
