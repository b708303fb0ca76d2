/**
 * The profile edit form: the nickname field, the set of chosen interest
 * ids (a JavaScript Set, which keeps its members in insertion order), the
 * list of interests to choose from and the form's own error line.
 */
module ProfileEdit {
  import opened Common
  import opened Strings
  import opened Domain

  /** No id occurs twice: the order-keeping contents of a Set. */
  predicate NoDups(s: seq<int>) {
    forall i, j :: 0 <= i < j < |s| ==> s[i] != s[j]
  }

  /** `new Set(ids)`: the ids in order of first occurrence, each once. */
  function Dedup(ids: seq<int>): (r: seq<int>)
    ensures NoDups(r)
    ensures forall x :: x in r <==> x in ids
    ensures |r| <= |ids|
  {
    if ids == [] then []
    else
      var d := Dedup(ids[..|ids| - 1]);
      var last := ids[|ids| - 1];
      assert forall x :: x in ids <==> x in ids[..|ids| - 1] || x == last;
      if last in d then d else d + [last]
  }

  /** A list without repeats is already a Set's contents. */
  lemma {:induction false} DedupOfDistinct(ids: seq<int>)
    requires NoDups(ids)
    ensures Dedup(ids) == ids
  {
    if ids != [] {
      var init := ids[..|ids| - 1];
      DedupOfDistinct(init);
      assert ids[|ids| - 1] !in init;
      assert init + [ids[|ids| - 1]] == ids;
    }
  }

  /** The contents with one id taken out, the rest in order. */
  function Remove(s: seq<int>, id: int): (r: seq<int>)
    ensures forall x :: x in r <==> x in s && x != id
    ensures NoDups(s) ==> NoDups(r)
    ensures NoDups(s) && id in s ==> |r| == |s| - 1
    ensures id !in s ==> r == s
  {
    if s == [] then []
    else
      var rest := Remove(s[1..], id);
      assert forall x :: x in s <==> x == s[0] || x in s[1..];
      assert NoDups(s) ==> NoDups(s[1..]) && s[0] !in s[1..] by {
        if NoDups(s) {
          forall k | 0 <= k < |s| - 1 ensures s[1..][k] != s[0] {
            assert s[1..][k] == s[k + 1];
          }
        }
      }
      if s[0] == id then rest else [s[0]] + rest
  }

  /** `handleInterestChange(id)`: an id that is in the set leaves it, one that is not joins it at the end. */
  function Toggle(s: seq<int>, id: int): (r: seq<int>)
    requires NoDups(s)
    ensures NoDups(r)
    ensures id in r <==> id !in s
    ensures forall x :: x != id ==> (x in r <==> x in s)
    ensures id !in s ==> r == s + [id]
  {
    if id in s then Remove(s, id) else s + [id]
  }

  /** Toggling an id twice gives back the same set of ids, in the same order when it was absent. */
  lemma ToggleTwice(s: seq<int>, id: int)
    requires NoDups(s)
    ensures forall x :: x in Toggle(Toggle(s, id), id) <==> x in s
    ensures |Toggle(Toggle(s, id), id)| == |s|
    ensures id !in s ==> Toggle(Toggle(s, id), id) == s
  {
    if id !in s {
      var t := s + [id];
      assert Remove(t, id) == s by { RemoveLast(s, id); }
    }
  }

  lemma {:induction false} RemoveLast(s: seq<int>, id: int)
    requires id !in s
    ensures Remove(s + [id], id) == s
  {
    if s != [] {
      assert (s + [id])[1..] == s[1..] + [id];
      RemoveLast(s[1..], id);
    }
  }

  const EmptyNicknameText: string := "Nickname cannot be empty."
  const NicknameLengthText: string := "Nickname must be between 3 and 50 characters."
  const InterestsLoadFailedText: string := "Could not load available interests. Please try again later."

  /** The submit checks on the nickname: None when it passes, otherwise the error shown. */
  function ValidateNickname(nickname: string): (r: Option<string>)
    ensures r.None? <==> 3 <= |Trim(nickname)| <= 50
    ensures r == Some(EmptyNicknameText) <==> AllWhitespace(nickname)
    ensures r == Some(NicknameLengthText) <==> !AllWhitespace(nickname) && !(3 <= |Trim(nickname)| <= 50)
  {
    var t := Trim(nickname);
    if t == "" then Some(EmptyNicknameText)
    else if |t| < 3 || |t| > 50 then Some(NicknameLengthText)
    else None
  }

  /** What the form hands to `onSubmit`. */
  datatype ProfileUpdate = ProfileUpdate(nickname: string, interestIds: seq<int>)

  class ProfileEditForm {
    var nickname: string
    var selectedInterestIds: seq<int>
    var availableInterests: seq<Interest>
    var formError: string
    var interestsLoading: bool

    ghost predicate Valid()
      reads this
    {
      NoDups(selectedInterestIds)
    }

    /** The initial state from `initialData`: its nickname or "", and its interest ids as a set. */
    constructor(initialNickname: Option<string>, initialInterestIds: Option<seq<int>>)
      ensures nickname == OrElse(initialNickname, "")
      ensures selectedInterestIds == Dedup(initialInterestIds.GetOr([]))
      ensures availableInterests == [] && formError == "" && interestsLoading
      ensures Valid()
    {
      nickname := OrElse(initialNickname, "");
      selectedInterestIds := Dedup(initialInterestIds.GetOr([]));
      availableInterests := [];
      formError := "";
      interestsLoading := true;
    }

    /** The effect that re-reads `initialData` when it changes. */
    method SyncInitialData(initialNickname: Option<string>, initialInterestIds: Option<seq<int>>)
      modifies this
      ensures nickname == OrElse(initialNickname, "")
      ensures selectedInterestIds == Dedup(initialInterestIds.GetOr([]))
      ensures availableInterests == old(availableInterests) && formError == old(formError)
      ensures interestsLoading == old(interestsLoading)
      ensures Valid()
    {
      nickname := OrElse(initialNickname, "");
      selectedInterestIds := Dedup(initialInterestIds.GetOr([]));
    }

    /** The mount effect that loads the interests to choose from. */
    method LoadInterests(fetch: InterestsFetch)
      requires Valid()
      modifies this
      ensures fetch.InterestsLoaded? ==> availableInterests == fetch.data.GetOr([]) && formError == ""
      ensures fetch.InterestsFailed? ==>
        availableInterests == old(availableInterests) && formError == InterestsLoadFailedText
      ensures !interestsLoading
      ensures nickname == old(nickname) && selectedInterestIds == old(selectedInterestIds)
      ensures Valid()
    {
      interestsLoading := true;
      formError := "";
      match fetch {
        case InterestsLoaded(data) =>
          availableInterests := data.GetOr([]);
        case InterestsFailed(_) =>
          formError := InterestsLoadFailedText;
      }
      interestsLoading := false;
    }

    method SetNickname(text: string)
      modifies this
      ensures nickname == text
      ensures selectedInterestIds == old(selectedInterestIds) && availableInterests == old(availableInterests)
      ensures formError == old(formError) && interestsLoading == old(interestsLoading)
    {
      nickname := text;
    }

    /** A checkbox click: the id is toggled in a copy of the set, which replaces it. */
    method HandleInterestChange(id: int)
      requires Valid()
      modifies this
      ensures selectedInterestIds == Toggle(old(selectedInterestIds), id)
      ensures nickname == old(nickname) && availableInterests == old(availableInterests)
      ensures formError == old(formError) && interestsLoading == old(interestsLoading)
      ensures Valid()
    {
      var copy := selectedInterestIds;
      if id in copy {
        copy := Remove(copy, id);
      } else {
        copy := copy + [id];
      }
      selectedInterestIds := copy;
    }

    /**
     * `handleSubmit`: the previous error is cleared; a nickname that fails the
     * checks sets the error and nothing is submitted; otherwise the trimmed
     * nickname and every chosen id, once each, are submitted.
     */
    method HandleSubmit() returns (submitted: Option<ProfileUpdate>)
      requires Valid()
      modifies this
      ensures ValidateNickname(nickname).Some? ==>
        submitted.None? && formError == ValidateNickname(nickname).value
      ensures ValidateNickname(nickname).None? ==>
        submitted == Some(ProfileUpdate(Trim(nickname), selectedInterestIds)) && formError == ""
      ensures submitted.Some? ==>
        NoDups(submitted.value.interestIds)
        && forall x :: x in submitted.value.interestIds <==> x in selectedInterestIds
      ensures nickname == old(nickname) && selectedInterestIds == old(selectedInterestIds)
      ensures availableInterests == old(availableInterests) && interestsLoading == old(interestsLoading)
      ensures Valid()
    {
      formError := "";
      var check := ValidateNickname(nickname);
      if check.Some? {
        formError := check.value;
        return None;
      }
      submitted := Some(ProfileUpdate(Trim(nickname), selectedInterestIds));
    }
  }
}
