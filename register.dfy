/**
 * The registration form: the three fields, an error line, a success line
 * and a loading flag; the checks run in a fixed order before the
 * registration request is sent.
 */
module Register {
  import opened Common
  import opened Strings
  import opened Domain
  import ProfileEdit

  const PasswordMismatchText: string := "Passwords do not match."
  const PasswordLengthText: string := "Password must be at least 6 characters long."
  const NicknameLengthText: string := "Nickname must be at least 3 characters long."
  const RegisterFailedText: string := "Registration failed. Please try a different nickname or try again later."
  const CanLogInSuffix: string := " You can now log in."

  /**
   * The checks in their order: the passwords must match, the password must
   * have 6 characters, the nickname as typed (not trimmed) 3 characters.
   */
  function ValidateRegistration(nickname: string, password: string, confirmPassword: string): (r: Option<string>)
    ensures r.None? <==> password == confirmPassword && |password| >= 6 && |nickname| >= 3
    ensures password != confirmPassword ==> r == Some(PasswordMismatchText)
    ensures password == confirmPassword && |password| < 6 ==> r == Some(PasswordLengthText)
    ensures password == confirmPassword && |password| >= 6 && |nickname| < 3 ==> r == Some(NicknameLengthText)
  {
    if password != confirmPassword then Some(PasswordMismatchText)
    else if |password| < 6 then Some(PasswordLengthText)
    else if |nickname| < 3 then Some(NicknameLengthText)
    else None
  }

  /**
   * Registration counts blanks, the profile form does not: three spaces are
   * accepted as a new nickname and refused when the profile is edited.
   */
  lemma NicknameRulesDiffer()
    ensures ValidateRegistration("   ", "secret", "secret").None?
    ensures ProfileEdit.ValidateNickname("   ") == Some(ProfileEdit.EmptyNicknameText)
  {
    assert AllWhitespace("   ");
  }

  /** What `registerUser` was called with. */
  datatype Credentials = Credentials(nickname: string, password: string)

  /** Result of `registerUser`: the server's message, or a rejection. */
  datatype RegisterOutcome = Registered(message: string) | RegisterFailed(error: HttpError)

  class RegisterForm {
    var nickname: string
    var password: string
    var confirmPassword: string
    var error: string
    var success: string
    var loading: bool

    constructor()
      ensures nickname == "" && password == "" && confirmPassword == ""
      ensures error == "" && success == "" && !loading
    {
      nickname := "";
      password := "";
      confirmPassword := "";
      error := "";
      success := "";
      loading := false;
    }

    /** Typing in the three fields. */
    method SetFields(nickname: string, password: string, confirmPassword: string)
      modifies this
      ensures this.nickname == nickname && this.password == password && this.confirmPassword == confirmPassword
      ensures error == old(error) && success == old(success) && loading == old(loading)
    {
      this.nickname := nickname;
      this.password := password;
      this.confirmPassword := confirmPassword;
    }

    /**
     * `handleSubmit`: both messages are cleared; a failed check sets the
     * error and nothing is sent; otherwise the request is sent with the
     * fields as typed. Success shows the server's message with a hint,
     * clears the three fields and schedules the move to the login page; a
     * failure shows the server's message, the error's own message or a
     * fixed text.
     */
    method HandleSubmit(outcome: RegisterOutcome) returns (request: Option<Credentials>, navigation: Option<Navigation>)
      modifies this
      ensures ValidateRegistration(old(nickname), old(password), old(confirmPassword)).Some? ==>
        request.None? && navigation.None?
        && error == ValidateRegistration(old(nickname), old(password), old(confirmPassword)).value && success == ""
        && nickname == old(nickname) && password == old(password) && confirmPassword == old(confirmPassword)
        && loading == old(loading)
      ensures ValidateRegistration(old(nickname), old(password), old(confirmPassword)).None? ==>
        request == Some(Credentials(old(nickname), old(password))) && !loading
      ensures ValidateRegistration(old(nickname), old(password), old(confirmPassword)).None? && outcome.Registered? ==>
        success == outcome.message + CanLogInSuffix && error == ""
        && nickname == "" && password == "" && confirmPassword == ""
        && navigation == Some(GoTo("/login"))
      ensures ValidateRegistration(old(nickname), old(password), old(confirmPassword)).None? && outcome.RegisterFailed? ==>
        error == ErrorTextOr(outcome.error, RegisterFailedText) && success == ""
        && nickname == old(nickname) && password == old(password) && confirmPassword == old(confirmPassword)
        && navigation.None?
    {
      error := "";
      success := "";
      navigation := None;
      if password != confirmPassword {
        error := PasswordMismatchText;
        return None, None;
      }
      if |password| < 6 {
        error := PasswordLengthText;
        return None, None;
      }
      if |nickname| < 3 {
        error := NicknameLengthText;
        return None, None;
      }
      loading := true;
      request := Some(Credentials(nickname, password));
      match outcome {
        case Registered(message) =>
          success := message + CanLogInSuffix;
          nickname := "";
          password := "";
          confirmPassword := "";
          navigation := Some(GoTo("/login"));
        case RegisterFailed(e) =>
          error := ErrorTextOr(e, RegisterFailedText);
      }
      loading := false;
    }
  }
}
