/**
 * Helpers for image URLs, message ownership and text truncation.
 * `formatTimeAgo` (wall-clock dates) is not part of this model.
 */
module Helpers {
  import opened Common
  import opened Strings
  import opened Domain

  const FallbackServerBase: string := "http://localhost:8080"

  /**
   * The server the static files come from: the configured API base URL
   * with its first "/api" removed, or the local fallback when the
   * configuration is missing or empty.
   */
  function ServerBase(apiBaseUrl: Option<string>): (r: string)
    ensures !Truthy(apiBaseUrl) ==> r == FallbackServerBase
    ensures Truthy(apiBaseUrl) && !Includes(apiBaseUrl.value, "/api") ==> r == apiBaseUrl.value
    ensures Truthy(apiBaseUrl) && Includes(apiBaseUrl.value, "/api") ==>
      var i := IndexOf(apiBaseUrl.value, "/api");
      r == apiBaseUrl.value[..i] + apiBaseUrl.value[i + 4..]
  {
    if Truthy(apiBaseUrl) then
      var r := ReplaceFirst(apiBaseUrl.value, "/api", "");
      assert Includes(apiBaseUrl.value, "/api") ==>
        var i := IndexOf(apiBaseUrl.value, "/api");
        r == apiBaseUrl.value[..i] + apiBaseUrl.value[i + 4..];
      r
    else FallbackServerBase
  }

  /** An absolute URL, or an object URL of a local file. */
  predicate IsAbsoluteUrl(u: string) {
    StartsWith(u, "http://") || StartsWith(u, "https://") || StartsWith(u, "blob:")
  }

  /**
   * `getFullImageUrl(url)`: null for a missing or empty url, absolute URLs
   * unchanged, otherwise the server base followed by the path, with one
   * '/' added in front of the path when it has none.
   */
  function GetFullImageUrl(url: Option<string>, apiBaseUrl: Option<string>): (r: Option<string>)
    ensures r.None? <==> !Truthy(url)
    ensures Truthy(url) && IsAbsoluteUrl(url.value) ==> r == url
    ensures Truthy(url) && !IsAbsoluteUrl(url.value) && StartsWith(url.value, "/") ==>
      r == Some(ServerBase(apiBaseUrl) + url.value)
    ensures Truthy(url) && !IsAbsoluteUrl(url.value) && !StartsWith(url.value, "/") ==>
      r == Some(ServerBase(apiBaseUrl) + "/" + url.value)
  {
    if !Truthy(url) then None
    else if IsAbsoluteUrl(url.value) then url
    else
      var path := if StartsWith(url.value, "/") then url.value else "/" + url.value;
      assert ServerBase(apiBaseUrl) + ("/" + url.value) == ServerBase(apiBaseUrl) + "/" + url.value;
      Some(ServerBase(apiBaseUrl) + path)
  }

  /** The path part of a resolved relative URL starts with exactly the one '/' it was given or gained. */
  lemma FullImageUrlPath(url: string, apiBaseUrl: Option<string>)
    requires url != "" && !IsAbsoluteUrl(url)
    ensures var r := GetFullImageUrl(Some(url), apiBaseUrl).value;
      var base := ServerBase(apiBaseUrl);
      && StartsWith(r, base)
      && r[|base|] == '/'
      && (r[|base| + 1..] == url || r[|base|..] == url)
  {
    var base := ServerBase(apiBaseUrl);
    var r := GetFullImageUrl(Some(url), apiBaseUrl).value;
    if StartsWith(url, "/") {
      assert r == base + url;
      assert r[..|base|] == base && r[|base|..] == url;
      assert r[|base|] == url[..1][0];
    } else {
      assert r == base + "/" + url;
      assert r[..|base|] == base && r[|base|] == '/' && r[|base| + 1..] == url;
    }
  }

  lemma PrefixKept(p: string, q: string, rest: string)
    requires StartsWith(p, q)
    ensures StartsWith(p + rest, q)
  {
    assert (p + rest)[..|q|] == p[..|q|];
  }

  /** When the server base is an http(s) URL, resolving a resolved URL changes nothing. */
  lemma GetFullImageUrlIdempotent(url: Option<string>, apiBaseUrl: Option<string>)
    requires StartsWith(ServerBase(apiBaseUrl), "http://") || StartsWith(ServerBase(apiBaseUrl), "https://")
    ensures var once := GetFullImageUrl(url, apiBaseUrl);
      GetFullImageUrl(once, apiBaseUrl) == once
  {
    var base := ServerBase(apiBaseUrl);
    if Truthy(url) && !IsAbsoluteUrl(url.value) {
      var path := if StartsWith(url.value, "/") then url.value else "/" + url.value;
      if StartsWith(base, "http://") {
        PrefixKept(base, "http://", path);
      } else {
        PrefixKept(base, "https://", path);
      }
    }
  }

  /**
   * `isMessageFromCurrentUser`: compares `String(senderId)` with
   * `String(currentUserId)` when both ids are truthy, otherwise the
   * nicknames when both are truthy, otherwise false.
   */
  function IsMessageFromCurrentUser(msg: Option<Message>, nickname: Option<string>, userId: Option<Id>): (r: bool)
    ensures msg.None? ==> !r
    ensures msg.Some? && IdTruthy(userId) && IdTruthy(msg.value.senderId) ==>
      (r <==> IdText(msg.value.senderId.value) == IdText(userId.value))
    ensures msg.Some? && !(IdTruthy(userId) && IdTruthy(msg.value.senderId)) ==>
      (r <==> Truthy(nickname) && Truthy(msg.value.senderNickname) && msg.value.senderNickname == nickname)
  {
    if msg.None? then false
    else if IdTruthy(userId) && IdTruthy(msg.value.senderId) then
      IdText(msg.value.senderId.value) == IdText(userId.value)
    else if Truthy(nickname) && Truthy(msg.value.senderNickname) then
      msg.value.senderNickname.value == nickname.value
    else false
  }

  /** When both ids are present the nicknames play no part. */
  lemma OwnershipIgnoresNicknames(msg: Message, n1: Option<string>, n2: Option<string>, userId: Option<Id>)
    requires IdTruthy(userId) && IdTruthy(msg.senderId)
    ensures IsMessageFromCurrentUser(Some(msg), n1, userId) == IsMessageFromCurrentUser(Some(msg), n2, userId)
  {
  }

  /** A numeric id and its decimal string form identify the same user. */
  lemma OwnershipAcrossIdRepresentations(msg: Message, nickname: Option<string>, n: int)
    requires n != 0 && msg.senderId == Some(StrId(IntToString(n)))
    ensures IsMessageFromCurrentUser(Some(msg), nickname, Some(NumId(n)))
  {
  }

  /**
   * `truncateText(text, maxLength = 100)`: "" for missing or empty text,
   * the text itself when it fits, otherwise its first `maxLength`
   * characters followed by "..." (`substring` clamps a negative length to 0).
   */
  function TruncateText(text: Option<string>, maxLength: int := 100): (r: string)
    ensures !Truthy(text) ==> r == ""
    ensures Truthy(text) && |text.value| <= maxLength ==> r == text.value
    ensures Truthy(text) && |text.value| > maxLength && maxLength >= 0 ==>
      |r| == maxLength + 3 && r[..maxLength] == text.value[..maxLength] && r[maxLength..] == "..."
    ensures Truthy(text) && maxLength < 0 ==> r == "..."
  {
    if !Truthy(text) then ""
    else if |text.value| <= maxLength then text.value
    else
      var keep := if maxLength < 0 then 0 else maxLength;
      text.value[..keep] + "..."
  }

  /** With the default limit, a text of 101 characters or more keeps 100 of them. */
  lemma TruncateDefaultLimit(text: string)
    requires |text| > 100
    ensures TruncateText(Some(text)) == text[..100] + "..."
  {
  }
}
