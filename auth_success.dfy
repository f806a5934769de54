/**
 * The landing page of a social login: it takes the token from the query
 * string, stores it, fetches the user with it and logs in.
 */
module AuthSuccess {
  import opened Wrappers
  import opened Http
  import opened Users
  import opened Storage
  import AuthService
  import AuthContext
  import HttpClient

  const HomeRoute := "/"
  const ExploreRoute := "/explore"

  /**
   * The effect on mount. `accessToken` is the query parameter and `me` the
   * answer to `GET /users/me`. Returns where the page navigates and the
   * user request as it left the client, if one was sent: that request
   * already carries the new token, since the token is stored first. On
   * failure only the token is removed again.
   */
  method Authenticate(auth: AuthContext.AuthProvider, accessToken: Option<string>, me: Result<User, RequestError>)
    returns (route: string, meRequest: Option<Request>)
    modifies auth`user, auth`isLoggedIn, auth.store
    ensures route == ExploreRoute <==> accessToken.Some? && accessToken.value != "" && me.Success?
    ensures route != ExploreRoute ==> route == HomeRoute
    ensures accessToken.None? || accessToken.value == "" ==>
      meRequest == None && auth.store.items == old(auth.store.items)
      && auth.user == old(auth.user) && auth.isLoggedIn == old(auth.isLoggedIn)
    ensures accessToken.Some? && accessToken.value != "" ==>
      && meRequest.Some? && meRequest.value.path == AuthContext.MePath
      && meRequest.value.headers == map[HttpClient.AuthorizationHeader := "Bearer " + accessToken.value]
    ensures accessToken.Some? && accessToken.value != "" && me.Success? ==>
      && auth.user == Some(me.value) && auth.isLoggedIn && auth.Agrees()
      && auth.store.items == old(auth.store.items)[UserKey := EncodeUser(me.value)][TokenKey := accessToken.value]
    ensures accessToken.Some? && accessToken.value != "" && me.Failure? ==>
      && auth.store.items == old(auth.store.items) - {TokenKey}
      && auth.user == old(auth.user) && auth.isLoggedIn == old(auth.isLoggedIn)
  {
    meRequest := None;
    if accessToken.None? || accessToken.value == "" {
      return HomeRoute, None;
    }
    var token := accessToken.value;
    auth.store.SetItem(TokenKey, token);
    meRequest := Some(HttpClient.AttachBearer(auth.store.items, Request(AuthContext.MePath, map[], false)));
    var fetched := AuthService.GetUserInfo(auth.store, me);
    match fetched {
      case Success(u) =>
        auth.Login(u, token);
        assert auth.store.items == old(auth.store.items)[UserKey := EncodeUser(u)][TokenKey := token];
        route := ExploreRoute;
      case Failure(_) =>
        auth.store.RemoveItem(TokenKey);
        route := HomeRoute;
    }
  }
}
