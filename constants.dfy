/**
 * The message-bus destinations, storage key and message kinds the client
 * shares between its parts.
 */
module Constants {
  import opened Common
  import opened Strings
  import opened Domain

  /** Where a chat's messages are broadcast; the chat id is appended. */
  const ChatTopicPrefix: string := "/topic/chat/"
  /** Prefix of the queues private to the logged-in user. */
  const UserSpecificPrefix: string := "/user/queue/"
  /** The user's private error queue. */
  const UserErrorsQueue: string := UserSpecificPrefix + "errors"
  /** Prefix of the destinations handled by the server application. */
  const AppDestinationPrefix: string := "/app"

  /** The storage key the bearer token is kept under. */
  const LocalStorageTokenKey: string := "token"
  const DefaultAvatarPath: string := "/images/default-avatar.png"

  /** The four message kinds. */
  const TextType: string := "TEXT"
  const ImageType: string := "IMAGE"
  const JoinType: string := "JOIN"
  const LeaveType: string := "LEAVE"
  const ChatMessageTypes: seq<string> := [TextType, ImageType, JoinType, LeaveType]

  const MaxImageUploadSizeMb: nat := 10

  /** `WS_SEND_MESSAGE_ENDPOINT(chatId)`: the destination a chat's messages are sent to. */
  function SendMessageEndpoint(chatId: Id): (r: string)
    ensures |r| == 15 + |IdText(chatId)| && StartsWith(r, "/app/chat/")
    ensures r[|r| - 5..] == "/send"
    ensures r[10..|r| - 5] == IdText(chatId)
  {
    AppDestinationPrefix + "/chat/" + IdText(chatId) + "/send"
  }

  /** The destination text determines the id's text: the endpoint can be read back. */
  lemma SendMessageEndpointInjective(a: Id, b: Id)
    ensures SendMessageEndpoint(a) == SendMessageEndpoint(b) <==> IdText(a) == IdText(b)
  {
    var ra, rb := SendMessageEndpoint(a), SendMessageEndpoint(b);
    if ra == rb {
      assert ra[10..|ra| - 5] == rb[10..|rb| - 5];
    }
  }

  /** Distinct numeric chat ids give distinct send destinations. */
  lemma DistinctNumericChatsDistinctEndpoints(a: int, b: int)
    requires a != b
    ensures SendMessageEndpoint(NumId(a)) != SendMessageEndpoint(NumId(b))
  {
    SendMessageEndpointInjective(NumId(a), NumId(b));
    IntToStringInjective(a, b);
  }

  /** The error queue is the user-specific prefix followed by "errors". */
  lemma UserErrorsQueueValue()
    ensures UserErrorsQueue == "/user/queue/errors"
  {
  }

  /** The four message kinds are pairwise distinct. */
  lemma MessageTypesDistinct()
    ensures |ChatMessageTypes| == 4
    ensures forall i, j :: 0 <= i < j < 4 ==> ChatMessageTypes[i] != ChatMessageTypes[j]
  {
  }
}
