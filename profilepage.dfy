/**
 * The profile page: loading the signed-in user's profile, saving edits,
 * picking and uploading an avatar, and choosing what to render. Saved
 * changes are copied into the authentication context.
 */
module ProfilePage {
  import opened Common
  import opened Strings
  import opened Domain
  import Auth
  import ProfileEdit

  const NotAuthenticatedText: string := "User not authenticated or session expired."
  const LoadFailedText: string := "Failed to load profile data."
  const UpdateFailedText: string := "Failed to update profile."
  const AvatarTypeText: string := "Please select a valid image file (e.g., PNG, JPG, GIF)."
  const AvatarSizeText: string := "Avatar file is too large. Maximum size is 5MB."
  const AvatarUploadFailedText: string := "Failed to upload avatar."
  const NoProfileText: string := "Could not load profile data."

  /** The largest avatar accepted, in bytes. */
  const MaxAvatarBytes: int := 5 * 1024 * 1024

  /** The check of a picked avatar: None when it is accepted, otherwise the error shown. */
  function ValidateAvatar(f: File): (r: Option<string>)
    ensures r.None? <==> IsImageType(f) && f.size <= MaxAvatarBytes
    ensures !IsImageType(f) ==> r == Some(AvatarTypeText)
    ensures IsImageType(f) && f.size > MaxAvatarBytes ==> r == Some(AvatarSizeText)
  {
    if !IsImageType(f) then Some(AvatarTypeText)
    else if f.size > 5 * 1024 * 1024 then Some(AvatarSizeText)
    else None
  }

  /** The avatar limit is inclusive: exactly 5 MiB passes, one byte more does not. */
  lemma AvatarSizeBoundary(mimeType: string)
    requires StartsWith(mimeType, "image/")
    ensures ValidateAvatar(File(mimeType, 5242880)).None?
    ensures ValidateAvatar(File(mimeType, 5242881)) == Some(AvatarSizeText)
  {
  }

  /** What the page shows. */
  datatype View = SessionSpinner | ProfileSpinner | ErrorView(text: string) | ProfileView

  /**
   * The render choice: the session spinner while authentication loads; the
   * profile spinner while the page loads or while there is neither a
   * profile nor an error; the error view when there is an error or no
   * profile; otherwise the profile.
   */
  function RenderState(authLoading: bool, pageLoading: bool, hasProfile: bool, error: string): (r: View)
    ensures r == SessionSpinner <==> authLoading
    ensures r == ProfileSpinner <==> !authLoading && (pageLoading || (!hasProfile && error == ""))
    ensures r.ErrorView? <==> !authLoading && !pageLoading && error != ""
    ensures r.ErrorView? ==> r.text == error
    ensures r == ProfileView <==> !authLoading && !pageLoading && hasProfile && error == ""
  {
    if authLoading then SessionSpinner
    else if pageLoading || (!hasProfile && error == "") then ProfileSpinner
    else if error != "" || !hasProfile then ErrorView(if error != "" then error else NoProfileText)
    else ProfileView
  }

  /** Result of `getUserProfile`, `updateUserProfile` or `updateUserAvatar`: a profile or a rejection. */
  datatype ProfileCall = ProfileReturned(profile: Record) | ProfileCallFailed(error: HttpError)

  /** The profile fields an avatar upload copies into the context. */
  function AvatarUpdate(profile: Record): (r: Record)
    ensures r.Keys == {"profilePictureUrl"}
    ensures r["profilePictureUrl"] == Field(profile, "profilePictureUrl")
  {
    map["profilePictureUrl" := Field(profile, "profilePictureUrl")]
  }

  class ProfilePageState {
    var profileData: Option<Record>
    var pageLoading: bool
    var error: string
    var editMode: bool
    var avatarFile: Option<File>
    var uploadingAvatar: bool
    var updateError: string

    /** A stored avatar has passed the checks. */
    ghost predicate Valid()
      reads this
    {
      avatarFile.Some? ==> ValidateAvatar(avatarFile.value).None?
    }

    constructor()
      ensures profileData.None? && pageLoading && error == "" && !editMode
      ensures avatarFile.None? && !uploadingAvatar && updateError == ""
      ensures Valid()
    {
      profileData := None;
      pageLoading := true;
      error := "";
      editMode := false;
      avatarFile := None;
      uploadingAvatar := false;
      updateError := "";
    }

    /** The render of the current state. */
    function View(authLoading: bool): (r: View)
      reads this
      ensures r == ProfileView ==> profileData.Some? && error == ""
    {
      RenderState(authLoading, pageLoading, profileData.Some?, error)
    }

    /**
     * `loadProfile()` for the user the context holds: with a user that has
     * an id the profile is fetched (a failure clears it and sets the error);
     * with no such user once authentication has finished the page reports
     * that nobody is signed in; while authentication is loading nothing happens.
     */
    method LoadProfile(currentUser: Option<Record>, authLoading: bool, fetch: ProfileCall)
      requires Valid()
      modifies this
      ensures Valid()
      ensures editMode == old(editMode) && avatarFile == old(avatarFile)
      ensures uploadingAvatar == old(uploadingAvatar) && updateError == old(updateError)
      ensures currentUser.Some? && Field(currentUser.value, "id").IsTruthy() ==>
        !pageLoading
        && (fetch.ProfileReturned? ==> profileData == Some(fetch.profile) && error == "")
        && (fetch.ProfileCallFailed? ==>
              profileData.None? && error == ServerMessageOr(fetch.error, LoadFailedText))
      ensures !(currentUser.Some? && Field(currentUser.value, "id").IsTruthy()) && !authLoading ==>
        error == NotAuthenticatedText && !pageLoading && profileData.None?
      ensures !(currentUser.Some? && Field(currentUser.value, "id").IsTruthy()) && authLoading ==>
        profileData == old(profileData) && pageLoading == old(pageLoading) && error == old(error)
    {
      if currentUser.Some? && Field(currentUser.value, "id").IsTruthy() {
        pageLoading := true;
        error := "";
        match fetch {
          case ProfileReturned(p) =>
            profileData := Some(p);
          case ProfileCallFailed(e) =>
            error := ServerMessageOr(e, LoadFailedText);
            profileData := None;
        }
        pageLoading := false;
      } else if !authLoading {
        error := NotAuthenticatedText;
        pageLoading := false;
        profileData := None;
      }
    }

    /** The edit button and the form's cancel button. */
    method SetEditMode(on: bool)
      modifies this
      ensures editMode == on
      ensures !on ==> updateError == ""
      ensures on ==> updateError == old(updateError)
      ensures profileData == old(profileData) && pageLoading == old(pageLoading) && error == old(error)
      ensures avatarFile == old(avatarFile) && uploadingAvatar == old(uploadingAvatar)
    {
      editMode := on;
      if !on {
        updateError := "";
      }
    }

    /**
     * `handleProfileUpdate(data)`: without a profile nothing happens. Otherwise
     * the update is sent; the returned profile replaces the page's and is
     * merged into the context, and edit mode ends; a failure sets the update error.
     */
    method HandleProfileUpdate(update: ProfileEdit.ProfileUpdate, result: ProfileCall, auth: Auth.AuthProvider)
      returns (sent: Option<ProfileEdit.ProfileUpdate>)
      requires Valid() && auth.Valid()
      modifies this, auth
      ensures Valid() && auth.Valid() && auth.initialized == old(auth.initialized)
      ensures error == old(error) && avatarFile == old(avatarFile) && uploadingAvatar == old(uploadingAvatar)
      ensures auth.token == old(auth.token) && auth.storage == old(auth.storage)
      ensures old(profileData).None? ==>
        sent.None? && profileData == old(profileData) && pageLoading == old(pageLoading)
        && editMode == old(editMode) && updateError == old(updateError)
        && auth.currentUser == old(auth.currentUser)
      ensures old(profileData).Some? ==> sent == Some(update) && !pageLoading
      ensures old(profileData).Some? && result.ProfileReturned? ==>
        profileData == Some(result.profile) && !editMode && updateError == ""
        && auth.currentUser == Some(Auth.MergeUser(old(auth.currentUser), result.profile))
      ensures old(profileData).Some? && result.ProfileCallFailed? ==>
        profileData == old(profileData) && editMode == old(editMode)
        && updateError == ServerMessageOr(result.error, UpdateFailedText)
        && auth.currentUser == old(auth.currentUser)
    {
      if profileData.None? {
        return None;
      }
      pageLoading := true;
      updateError := "";
      sent := Some(update);
      match result {
        case ProfileReturned(p) =>
          profileData := Some(p);
          auth.UpdateUserContext(p);
          editMode := false;
        case ProfileCallFailed(e) =>
          updateError := ServerMessageOr(e, UpdateFailedText);
      }
      pageLoading := false;
    }

    /**
     * `handleAvatarFileChange`: with no file picked nothing changes; a
     * rejected file clears the stored avatar and sets the update error; an
     * accepted one is stored and the update error cleared.
     */
    method HandleAvatarFileChange(files: seq<File>)
      requires Valid()
      modifies this
      ensures Valid()
      ensures files == [] ==> avatarFile == old(avatarFile) && updateError == old(updateError)
      ensures files != [] && ValidateAvatar(files[0]).Some? ==>
        avatarFile.None? && updateError == ValidateAvatar(files[0]).value
      ensures files != [] && ValidateAvatar(files[0]).None? ==>
        avatarFile == Some(files[0]) && updateError == ""
      ensures profileData == old(profileData) && pageLoading == old(pageLoading) && error == old(error)
      ensures editMode == old(editMode) && uploadingAvatar == old(uploadingAvatar)
    {
      if files != [] {
        var file := files[0];
        if !StartsWith(file.mimeType, "image/") {
          updateError := AvatarTypeText;
          avatarFile := None;
          return;
        }
        if file.size > 5 * 1024 * 1024 {
          updateError := AvatarSizeText;
          avatarFile := None;
          return;
        }
        avatarFile := Some(file);
        updateError := "";
      }
    }

    /**
     * `handleAvatarUpload()`: without a picked file or a profile nothing
     * happens. Otherwise the returned profile replaces the page's, only its
     * picture URL is merged into the context, and the picked file is
     * cleared; a failure sets the update error and keeps the file.
     */
    method HandleAvatarUpload(result: ProfileCall, auth: Auth.AuthProvider) returns (uploaded: Option<File>)
      requires Valid() && auth.Valid()
      modifies this, auth
      ensures Valid() && auth.Valid() && auth.initialized == old(auth.initialized)
      ensures error == old(error) && editMode == old(editMode) && pageLoading == old(pageLoading)
      ensures auth.token == old(auth.token) && auth.storage == old(auth.storage)
      ensures old(avatarFile).None? || old(profileData).None? ==>
        uploaded.None? && avatarFile == old(avatarFile) && profileData == old(profileData)
        && updateError == old(updateError) && uploadingAvatar == old(uploadingAvatar)
        && auth.currentUser == old(auth.currentUser)
      ensures old(avatarFile).Some? && old(profileData).Some? ==> uploaded == old(avatarFile) && !uploadingAvatar
      ensures old(avatarFile).Some? && old(profileData).Some? && result.ProfileReturned? ==>
        profileData == Some(result.profile) && avatarFile.None? && updateError == ""
        && auth.currentUser == Some(Auth.MergeUser(old(auth.currentUser), AvatarUpdate(result.profile)))
      ensures old(avatarFile).Some? && old(profileData).Some? && result.ProfileCallFailed? ==>
        profileData == old(profileData) && avatarFile == old(avatarFile)
        && updateError == ServerMessageOr(result.error, AvatarUploadFailedText)
        && auth.currentUser == old(auth.currentUser)
    {
      if avatarFile.None? || profileData.None? {
        return None;
      }
      uploaded := avatarFile;
      uploadingAvatar := true;
      updateError := "";
      match result {
        case ProfileReturned(p) =>
          profileData := Some(p);
          auth.UpdateUserContext(map["profilePictureUrl" := Field(p, "profilePictureUrl")]);
          avatarFile := None;
        case ProfileCallFailed(e) =>
          updateError := ServerMessageOr(e, AvatarUploadFailedText);
      }
      uploadingAvatar := false;
    }
  }

  /** An avatar upload changes only the picture URL of the user in the context. */
  lemma AvatarUploadKeepsOtherFields(prev: Record, profile: Record, k: string)
    requires k in prev && k != "profilePictureUrl"
    ensures k in Auth.MergeUser(Some(prev), AvatarUpdate(profile))
    ensures Auth.MergeUser(Some(prev), AvatarUpdate(profile))[k] == prev[k]
  {
  }
}
