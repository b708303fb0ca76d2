/**
 * The chat's message list: a placeholder when there are no messages,
 * otherwise one item per message with its key, its side (own or other),
 * a sender header for other people's messages and a text or image body.
 * Send times (`formatTimeAgo`) and scrolling are not part of this model.
 */
module MessageList {
  import opened Common
  import opened Strings
  import opened Domain
  import Helpers

  /**
   * Whether the list draws a message on the user's own side:
   * `(nick && msg.senderNickname === nick) || (uid && msg.senderId === uid)`,
   * strict equality, so a numeric id never equals a string id.
   */
  predicate IsOwnMessage(msg: Message, nickname: Option<string>, userId: Option<Id>) {
    (Truthy(nickname) && msg.senderNickname == nickname)
    || (IdTruthy(userId) && msg.senderId == userId)
  }

  /** The React key: `msg.id || "msg-" + index`. */
  function ItemKey(msg: Message, index: nat): (r: string)
    ensures IdTruthy(msg.id) ==> r == IdText(msg.id.value)
    ensures !IdTruthy(msg.id) ==> r == "msg-" + NatToString(index)
  {
    if IdTruthy(msg.id) then IdText(msg.id.value) else "msg-" + NatToString(index)
  }

  /** The sender line shown above other people's messages. */
  datatype Header = Header(avatarSrc: string, name: string)

  /** The message body: its text, an image with an optional caption, or nothing. */
  datatype Body = TextBody(text: string) | ImageBody(src: string, caption: Option<string>) | NoBody

  datatype Item = Item(key: string, own: bool, header: Option<Header>, body: Body)

  datatype ListView = Placeholder | Items(items: seq<Item>)

  /** The body of one message: TEXT with text, IMAGE with an image URL, or nothing for other kinds. */
  function BodyOf(msg: Message, apiBaseUrl: Option<string>): (r: Body)
    ensures r.TextBody? <==> msg.messageType == "TEXT" && Truthy(msg.contentText)
    ensures r.TextBody? ==> r.text == msg.contentText.value
    ensures r.ImageBody? <==> msg.messageType == "IMAGE" && Truthy(msg.contentImageUrl)
    ensures r.ImageBody? ==>
      Some(r.src) == Helpers.GetFullImageUrl(msg.contentImageUrl, apiBaseUrl)
      && (r.caption.Some? <==> Truthy(msg.contentText))
      && (r.caption.Some? ==> r.caption == msg.contentText)
  {
    if msg.messageType == "TEXT" && Truthy(msg.contentText) then TextBody(msg.contentText.value)
    else if msg.messageType == "IMAGE" && Truthy(msg.contentImageUrl) then
      ImageBody(Helpers.GetFullImageUrl(msg.contentImageUrl, apiBaseUrl).value,
                if Truthy(msg.contentText) then msg.contentText else None)
    else NoBody
  }

  /** One rendered message; `defaultAvatar` is the bundled placeholder image. */
  function RenderItem(msg: Message, index: nat, nickname: Option<string>, userId: Option<Id>,
                      apiBaseUrl: Option<string>, defaultAvatar: string): (r: Item)
    ensures r.key == ItemKey(msg, index)
    ensures r.own == IsOwnMessage(msg, nickname, userId)
    ensures r.header.None? <==> r.own
    ensures r.header.Some? ==>
      r.header.value.avatarSrc == Helpers.GetFullImageUrl(msg.senderProfilePictureUrl, apiBaseUrl).GetOr(defaultAvatar)
      && r.header.value.name == OrElse(msg.senderNickname, "Unknown User")
    ensures r.body == BodyOf(msg, apiBaseUrl)
  {
    var own := IsOwnMessage(msg, nickname, userId);
    var header :=
      if own then None
      else Some(Header(Helpers.GetFullImageUrl(msg.senderProfilePictureUrl, apiBaseUrl).GetOr(defaultAvatar),
                       OrElse(msg.senderNickname, "Unknown User")));
    Item(ItemKey(msg, index), own, header, BodyOf(msg, apiBaseUrl))
  }

  /** The whole list: the placeholder for a missing or empty list, otherwise one item per message, in order. */
  function RenderList(messages: Option<seq<Message>>, nickname: Option<string>, userId: Option<Id>,
                      apiBaseUrl: Option<string>, defaultAvatar: string): (r: ListView)
    ensures r.Placeholder? <==> messages.None? || messages.value == []
    ensures r.Items? ==> |r.items| == |messages.value|
    ensures r.Items? ==> forall i :: 0 <= i < |r.items| ==>
      r.items[i] == RenderItem(messages.value[i], i, nickname, userId, apiBaseUrl, defaultAvatar)
  {
    if messages.None? || messages.value == [] then Placeholder
    else
      var ms := messages.value;
      Items(seq(|ms|, i requires 0 <= i < |ms| => RenderItem(ms[i], i, nickname, userId, apiBaseUrl, defaultAvatar)))
  }

  /** Index keys never collide: two messages without ids at different positions get different keys. */
  lemma IndexKeysDistinct(m1: Message, m2: Message, i: nat, j: nat)
    requires !IdTruthy(m1.id) && !IdTruthy(m2.id) && i != j
    ensures ItemKey(m1, i) != ItemKey(m2, j)
  {
    var k1, k2 := ItemKey(m1, i), ItemKey(m2, j);
    if k1 == k2 {
      assert k1[4..] == NatToString(i) && k2[4..] == NatToString(j);
      IntToStringInjective(i, j);
    }
  }

  /**
   * Where the list and `isMessageFromCurrentUser` part ways: the helper
   * compares ids as text, so a sender id sent as the string "5" belongs to
   * user 5, while the list's strict comparison draws it on the other side.
   */
  lemma OwnershipRulesDisagreeOnIdKind()
    ensures var msg := Message(None, Some(StrId("5")), Some("bob"), None, "TEXT", Some("hi"), None);
      Helpers.IsMessageFromCurrentUser(Some(msg), Some("alice"), Some(NumId(5)))
      && !IsOwnMessage(msg, Some("alice"), Some(NumId(5)))
  {
    assert IntToString(5) == "5";
  }

  /**
   * When the ids of sender and user are both present and of the same kind,
   * and a nickname match implies an id match, the list and the helper agree.
   */
  lemma {:induction false} OwnershipRulesAgree(msg: Message, nickname: Option<string>, userId: Option<Id>)
    requires IdTruthy(userId) && IdTruthy(msg.senderId)
    requires msg.senderId.value.NumId? == userId.value.NumId?
    requires Truthy(nickname) && msg.senderNickname == nickname ==> msg.senderId == userId
    ensures IsOwnMessage(msg, nickname, userId) == Helpers.IsMessageFromCurrentUser(Some(msg), nickname, userId)
  {
    var a, b := msg.senderId.value, userId.value;
    if a.NumId? {
      IntToStringInjective(a.n, b.n);
    }
  }
}
