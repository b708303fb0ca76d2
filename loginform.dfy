/**
 * The login form: the credentials, an error line and a loading flag; a
 * successful sign-in hands the token to the authentication context and
 * returns to the page the visitor came from.
 */
module LoginForm {
  import opened Common
  import opened Domain
  import Auth

  const NoTokenText: string := "Login successful, but no token received. Please contact support."
  const NoUserText: string := "Login succeeded, but failed to retrieve user details. Please try again."
  const LoginFailedText: string := "Login failed. Please check your nickname and password."

  /** `location.state?.from?.pathname || "/"`: where to go after signing in. */
  function FromPath(fromPathname: Option<string>): (r: string)
    ensures Truthy(fromPathname) ==> r == fromPathname.value
    ensures !Truthy(fromPathname) ==> r == "/"
    ensures r != ""
  {
    OrElse(fromPathname, "/")
  }

  /** A visitor the chat page sent to log in comes back to that chat. */
  lemma ReturnsToChat(chatId: string)
    ensures FromPath(Some("/chat/" + chatId)) == "/chat/" + chatId
  {
    assert ("/chat/" + chatId)[0] == '/';
  }

  /** Result of `loginUser`: the response's access token (None when the body has none), or a rejection. */
  datatype LoginResponse = LoginAnswered(accessToken: Option<string>) | LoginRequestFailed(error: HttpError)

  class LoginFormState {
    var nickname: string
    var password: string
    var error: string
    var loading: bool

    constructor()
      ensures nickname == "" && password == "" && error == "" && !loading
    {
      nickname := "";
      password := "";
      error := "";
      loading := false;
    }

    /**
     * `handleSubmit`: the error is cleared and loading starts. A response
     * with a token logs in through the context; with a user the page goes
     * to `from` replacing the history entry, without one an error is set. A
     * response without a token sets an error and does not log in. A failed
     * request shows the server's message, the error's own or a fixed text.
     * Loading ends on every path.
     */
    method HandleSubmit(response: LoginResponse, fromPathname: Option<string>,
                        auth: Auth.AuthProvider, profile: Auth.ProfileFetch) returns (navigation: Option<Navigation>)
      requires auth.Valid() && auth.initialized
      modifies this, auth
      ensures auth.Valid() && auth.initialized
      ensures !loading && nickname == old(nickname) && password == old(password)
      ensures response.LoginAnswered? && Truthy(response.accessToken) && profile.ProfileLoaded? ==>
        navigation == Some(Navigation(FromPath(fromPathname), None, None, true)) && error == ""
        && auth.token == response.accessToken && auth.currentUser == Some(profile.profile)
      ensures response.LoginAnswered? && Truthy(response.accessToken) && profile.ProfileFailed? ==>
        navigation.None? && error == NoUserText && auth.token.None? && auth.currentUser.None?
      ensures response.LoginAnswered? && !Truthy(response.accessToken) ==>
        navigation.None? && error == NoTokenText
        && auth.token == old(auth.token) && auth.currentUser == old(auth.currentUser)
        && auth.storage == old(auth.storage)
      ensures response.LoginRequestFailed? ==>
        navigation.None? && error == ErrorTextOr(response.error, LoginFailedText)
        && auth.token == old(auth.token) && auth.currentUser == old(auth.currentUser)
        && auth.storage == old(auth.storage)
    {
      error := "";
      loading := true;
      navigation := None;
      match response {
        case LoginAnswered(accessToken) =>
          if Truthy(accessToken) {
            var result := auth.Login(accessToken, profile);
            if result.LoginResolved? && result.user.Some? {
              navigation := Some(Navigation(FromPath(fromPathname), None, None, true));
            } else {
              error := NoUserText;
            }
          } else {
            error := NoTokenText;
          }
        case LoginRequestFailed(e) =>
          error := ErrorTextOr(e, LoginFailedText);
      }
      loading := false;
    }
  }
}
