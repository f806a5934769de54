/**
 * The register form: sending and checking the e-mail code, the submit
 * button's enabling rule, the submit checks and the register-then-login
 * sequence.
 */
module RegisterForm {
  import opened Wrappers
  import opened Json
  import opened Http
  import opened Text
  import opened Users
  import opened Storage
  import AuthService
  import AuthContext

  const AllFieldsMessage := "모든 필드를 입력해주세요."
  const EmailFormatMessage := "이메일 형식을 확인해주세요."
  const PasswordLengthMessage := "비밀번호는 최소 4자리 이상이어야 합니다."
  const PasswordMismatchMessage := "비밀번호가 일치하지 않습니다."
  const VerifyFirstMessage := "이메일 인증을 완료해주세요."
  const SendFailedMessage := "이메일 전송에 실패했습니다."
  const CodeRequiredMessage := "인증 코드를 입력해주세요."
  const WrongCodeMessage := "인증 코드가 올바르지 않습니다."
  const UnknownErrorMessage := "알 수 없는 오류가 발생했습니다."

  const RegisterPath := "/users/register"
  const LoginPath := "/users/login"
  const MinPasswordLength := 4
  const MinCodeLength := 4

  /**
   * The submit button is enabled. Lengths are counted as the browser
   * counts them, in UTF-16 code units.
   */
  predicate CanSubmit(isLoading: bool, isVerified: bool, name: string, password: string, confirmPassword: string)
    ensures CanSubmit(isLoading, isVerified, name, password, confirmPassword) ==>
      !isLoading && isVerified && |password| >= 2 && password == confirmPassword
  {
    !isLoading && isVerified && Trim(name) != "" && Utf16Length(password) >= MinPasswordLength && password == confirmPassword
  }

  /** Every field of the submit's first check is filled in. */
  predicate FieldsPresent(email: string, name: string, password: string, confirmPassword: string) {
    Trim(email) != "" && Trim(name) != "" && password != "" && confirmPassword != ""
  }

  /**
   * The submit checks in order; `None` when all pass. Each message is given
   * exactly when every earlier check passed and its own fails.
   */
  function SubmitCheck(email: string, name: string, password: string, confirmPassword: string,
                       authCode: string, isVerified: bool): (r: Option<string>)
    ensures r == Some(AllFieldsMessage) <==> !FieldsPresent(email, name, password, confirmPassword)
    ensures r == Some(EmailFormatMessage) <==> FieldsPresent(email, name, password, confirmPassword) && !Contains(email, '@')
    ensures r == Some(PasswordLengthMessage) <==>
      FieldsPresent(email, name, password, confirmPassword) && Contains(email, '@') && Utf16Length(password) < MinPasswordLength
    ensures r == Some(PasswordMismatchMessage) <==>
      (FieldsPresent(email, name, password, confirmPassword) && Contains(email, '@')
       && Utf16Length(password) >= MinPasswordLength && password != confirmPassword)
    ensures r == Some(VerifyFirstMessage) <==>
      (FieldsPresent(email, name, password, confirmPassword) && Contains(email, '@')
       && Utf16Length(password) >= MinPasswordLength && password == confirmPassword && (authCode == "" || !isVerified))
    ensures r.None? <==>
      (FieldsPresent(email, name, password, confirmPassword) && Contains(email, '@')
       && Utf16Length(password) >= MinPasswordLength && password == confirmPassword && authCode != "" && isVerified)
    ensures r.Some? ==> r.value in {AllFieldsMessage, EmailFormatMessage, PasswordLengthMessage, PasswordMismatchMessage, VerifyFirstMessage}
  {
    if Trim(email) == "" || Trim(name) == "" || password == "" || confirmPassword == "" then Some(AllFieldsMessage)
    else if !Contains(email, '@') then Some(EmailFormatMessage)
    else if Utf16Length(password) < MinPasswordLength then Some(PasswordLengthMessage)
    else if password != confirmPassword then Some(PasswordMismatchMessage)
    else if authCode == "" || !isVerified then Some(VerifyFirstMessage)
    else None
  }

  /** Whenever the checks pass on an idle form, the button was enabled. */
  lemma PassingChecksMeanEnabled(email: string, name: string, password: string, confirmPassword: string,
                                 authCode: string, isVerified: bool)
    requires SubmitCheck(email, name, password, confirmPassword, authCode, isVerified).None?
    ensures CanSubmit(false, isVerified, name, password, confirmPassword)
  {
  }

  /**
   * The converse fails: after verifying, clearing the code box (or the
   * e-mail) leaves the button enabled, yet submitting is refused.
   */
  lemma EnabledButRefused()
    ensures CanSubmit(false, true, "kim", "pass", "pass")
    ensures SubmitCheck("a@b", "kim", "pass", "pass", "", true) == Some(VerifyFirstMessage)
    ensures SubmitCheck("", "kim", "pass", "pass", "1234", true) == Some(AllFieldsMessage)
  {
    assert Trim("kim") == "kim" by { TrimmedFixed("kim"); }
    assert Trim("a@b") == "a@b" by { TrimmedFixed("a@b"); }
    assert Contains("a@b", '@') by { assert "a@b"[1] == '@'; }
    BmpLength("pass");
  }

  /**
   * A password of two emoji is four code units long: it passes the length
   * rule though it holds two characters.
   */
  lemma TwoEmojiPasswordLongEnough()
    ensures CanSubmit(false, true, "kim", "\U{1F600}\U{1F600}", "\U{1F600}\U{1F600}")
    ensures SubmitCheck("a@b", "kim", "\U{1F600}\U{1F600}", "\U{1F600}\U{1F600}", "1234", true).None?
  {
    AstralCountsTwice();
    assert Trim("kim") == "kim" by { TrimmedFixed("kim"); }
    assert Trim("a@b") == "a@b" by { TrimmedFixed("a@b"); }
    assert Contains("a@b", '@') by { assert "a@b"[1] == '@'; }
  }

  /** A failed register or login: the server's `error` field, else a generic text. */
  function RegisterErrorMessage(e: RequestError): (r: string)
    ensures r != ""
    ensures HasErrorField(e) ==> r == e.response.value.error.value
    ensures !HasErrorField(e) ==> r == UnknownErrorMessage
  {
    if HasErrorField(e) then e.response.value.error.value else UnknownErrorMessage
  }

  /** The register request's body. */
  datatype RegisterRequest = RegisterRequest(name: string, email: string, password: string, code: string)

  class RegisterForm {
    var name: string
    var email: string
    var authCode: string
    var isEmailSent: bool
    var isVerified: bool
    var password: string
    var confirmPassword: string
    var error: Option<string>
    var isLoading: bool
    var isEmailSending: bool
    var isVerifying: bool

    constructor ()
      ensures name == "" && email == "" && authCode == "" && password == "" && confirmPassword == ""
      ensures !isEmailSent && !isVerified && error == None && !isLoading && !isEmailSending && !isVerifying
    {
      name, email, authCode, password, confirmPassword := "", "", "", "", "";
      isEmailSent, isVerified := false, false;
      error, isLoading, isEmailSending, isVerifying := None, false, false, false;
    }

    /** `!!error`, what the form reports to the modal. */
    predicate HasError()
      reads this
    {
      error.Some? && error.value != ""
    }

    /**
     * Send the code. An address without '@' is refused before any request;
     * otherwise `response` is the mail call's answer. Returns whether the
     * request went out. The sent flag is only ever raised.
     */
    method HandleSendCode(response: Result<Json, RequestError>) returns (requested: bool)
      modifies this`isEmailSent, this`error, this`isEmailSending
      ensures requested <==> Contains(email, '@')
      ensures !requested ==> error == Some(EmailFormatMessage) && isEmailSent == old(isEmailSent) && isEmailSending == old(isEmailSending)
      ensures requested ==> !isEmailSending
      ensures requested && response.Success? ==> isEmailSent && error == None
      ensures requested && response.Failure? ==> isEmailSent == old(isEmailSent) && error == Some(SendFailedMessage)
      ensures old(isEmailSent) ==> isEmailSent
    {
      if !Contains(email, '@') {
        error := Some(EmailFormatMessage);
        return false;
      }
      requested := true;
      isEmailSending := true;
      error := None;
      if response.Success? {
        isEmailSent := true;
      } else {
        error := Some(SendFailedMessage);
      }
      isEmailSending := false;
    }

    /**
     * Check the code. A code shorter than four code units is refused
     * before any request; otherwise `response` is the verify call's answer.
     * Once verified, the form stays verified, whatever is edited later.
     */
    method HandleVerifyCode(response: Result<Json, RequestError>) returns (requested: bool)
      modifies this`isVerified, this`error, this`isVerifying
      ensures requested <==> Utf16Length(authCode) >= MinCodeLength
      ensures !requested ==> error == Some(CodeRequiredMessage) && isVerified == old(isVerified) && isVerifying == old(isVerifying)
      ensures requested ==> !isVerifying
      ensures requested && response.Success? ==> isVerified && error == None
      ensures requested && response.Failure? ==> isVerified == old(isVerified) && error == Some(WrongCodeMessage)
      ensures old(isVerified) ==> isVerified
    {
      if authCode == "" || Utf16Length(authCode) < MinCodeLength {
        error := Some(CodeRequiredMessage);
        return false;
      }
      requested := true;
      isVerifying := true;
      error := None;
      if response.Success? {
        isVerified := true;
      } else {
        error := Some(WrongCodeMessage);
      }
      isVerifying := false;
    }

    /**
     * Submit. The checks run first; then the account is registered with
     * the untrimmed fields and the code, and on success logged in with the
     * same e-mail and password, the login landing in the shared state.
     * Returns the request paths sent, in order, the register body if sent,
     * and whether the form reported success.
     */
    method HandleSubmit(auth: AuthContext.AuthProvider, registerResponse: Result<Json, RequestError>,
                        loginResponse: Result<AuthService.LoginResponse, RequestError>)
      returns (asked: seq<string>, body: Option<RegisterRequest>, succeeded: bool)
      modifies this`error, this`isLoading, auth`user, auth`isLoggedIn, auth.store
      ensures var check := SubmitCheck(old(email), old(name), old(password), old(confirmPassword), old(authCode), old(isVerified));
        && (check.Some? ==> (asked == [] && body == None && !succeeded && error == check && isLoading == old(isLoading)
              && auth.store.items == old(auth.store.items) && auth.user == old(auth.user) && auth.isLoggedIn == old(auth.isLoggedIn)))
        && (check.None? ==> body == Some(RegisterRequest(name, email, password, authCode)) && !isLoading)
        && (check.None? && registerResponse.Failure? ==> (asked == [RegisterPath] && !succeeded
              && error == Some(RegisterErrorMessage(registerResponse.error)) && auth.store.items == old(auth.store.items)
              && auth.user == old(auth.user) && auth.isLoggedIn == old(auth.isLoggedIn)))
        && (check.None? && registerResponse.Success? && loginResponse.Failure? ==> (asked == [RegisterPath, LoginPath] && !succeeded
              && error == Some(RegisterErrorMessage(loginResponse.error)) && auth.store.items == old(auth.store.items)
              && auth.user == old(auth.user) && auth.isLoggedIn == old(auth.isLoggedIn)))
        && (check.None? && registerResponse.Success? && loginResponse.Success? ==> (asked == [RegisterPath, LoginPath] && succeeded
              && error == None && auth.user == Some(loginResponse.value.user) && auth.isLoggedIn
              && auth.store.items == old(auth.store.items)[UserKey := EncodeUser(loginResponse.value.user)][TokenKey := loginResponse.value.accessToken]))
    {
      asked, body, succeeded := [], None, false;
      var check := SubmitCheck(email, name, password, confirmPassword, authCode, isVerified);
      if check.Some? {
        error := check;
        return;
      }
      isLoading := true;
      error := None;
      body := Some(RegisterRequest(name, email, password, authCode));
      asked := [RegisterPath];
      match registerResponse {
        case Failure(e) =>
          error := Some(RegisterErrorMessage(e));
        case Success(_) =>
          asked := asked + [LoginPath];
          var r := AuthService.Login(auth.store, loginResponse);
          match r {
            case Success(res) =>
              auth.Login(res.user, res.accessToken);
              assert auth.store.items == old(auth.store.items)[UserKey := EncodeUser(res.user)][TokenKey := res.accessToken];
              succeeded := true;
            case Failure(e) =>
              error := Some(RegisterErrorMessage(e));
          }
      }
      isLoading := false;
    }
  }
}
