/** The e-mail login form inside the login modal. */
module LoginForm {
  import opened Wrappers
  import opened Http
  import opened Users
  import opened Storage
  import AuthService
  import AuthContext

  const EmptyFieldsMessage := "이메일과 비밀번호를 입력해주세요."
  const LoginFailedMessage := "로그인에 실패했습니다. 이메일 또는 비밀번호를 확인해주세요."

  class LoginForm {
    var email: string
    var password: string
    var error: Option<string>
    var isLoading: bool

    constructor ()
      ensures email == "" && password == "" && error == None && !isLoading
    {
      email, password, error, isLoading := "", "", None, false;
    }

    /** `!!error`, what the form reports to the modal. */
    predicate HasError()
      reads this
    {
      error.Some? && error.value != ""
    }

    /**
     * Submit. Empty fields (untrimmed) stop with a message and no request.
     * Otherwise `response` is the login call's answer: on success the
     * token is stored by the service, then the shared state logs in with
     * the returned user and token and the form reports success; on any
     * failure one fixed message is shown, whatever the server said.
     */
    method HandleSubmit(auth: AuthContext.AuthProvider, response: Result<AuthService.LoginResponse, RequestError>)
      returns (requested: bool, succeeded: bool)
      modifies this`error, this`isLoading, auth`user, auth`isLoggedIn, auth.store
      ensures requested <==> email != "" && password != ""
      ensures !requested ==> (!succeeded && error == Some(EmptyFieldsMessage) && isLoading == old(isLoading)
        && auth.store.items == old(auth.store.items) && auth.user == old(auth.user) && auth.isLoggedIn == old(auth.isLoggedIn))
      ensures requested ==> !isLoading && (succeeded <==> response.Success?)
      ensures requested && response.Success? ==>
        var res := response.value;
        && error == None && auth.user == Some(res.user) && auth.isLoggedIn
        && auth.store.items == old(auth.store.items)[UserKey := EncodeUser(res.user)][TokenKey := res.accessToken]
        && (auth.Agrees() <==> res.accessToken != "")
      ensures requested && response.Failure? ==>
        error == Some(LoginFailedMessage)
        && auth.store.items == old(auth.store.items) && auth.user == old(auth.user) && auth.isLoggedIn == old(auth.isLoggedIn)
    {
      requested, succeeded := false, false;
      if email == "" || password == "" {
        error := Some(EmptyFieldsMessage);
        return;
      }
      requested := true;
      isLoading := true;
      error := None;
      var r := AuthService.Login(auth.store, response);
      match r {
        case Success(res) =>
          auth.Login(res.user, res.accessToken);
          assert auth.store.items == old(auth.store.items)[UserKey := EncodeUser(res.user)][TokenKey := res.accessToken];
          succeeded := true;
        case Failure(_) =>
          error := Some(LoginFailedMessage);
      }
      isLoading := false;
    }
  }
}
