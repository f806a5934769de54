/**
 * The authentication service: what each call leaves in local storage, and
 * the reads of the cached login state. Each network call is given by its
 * settled outcome.
 */
module AuthService {
  import opened Wrappers
  import opened Json
  import opened Http
  import opened Users
  import opened Storage

  /** The body of a successful `POST /users/login`. */
  datatype LoginResponse = LoginResponse(accessToken: string, user: User)

  /** `login`: a non-empty access token is stored; an empty one, or a failure, leaves storage alone. */
  method Login(store: Store, response: Result<LoginResponse, RequestError>) returns (r: Result<LoginResponse, RequestError>)
    modifies store
    ensures r == response
    ensures response.Success? && response.value.accessToken != "" ==>
      store.items == old(store.items)[TokenKey := response.value.accessToken]
    ensures response.Failure? || response.value.accessToken == "" ==> store.items == old(store.items)
  {
    r := response;
    if response.Success? && response.value.accessToken != "" {
      store.SetItem(TokenKey, response.value.accessToken);
    }
  }

  /** `logout`: the token is dropped only after the server confirmed; the cached user stays. */
  method Logout(store: Store, response: Result<Json, RequestError>) returns (r: Result<Json, RequestError>)
    modifies store
    ensures r == response
    ensures response.Success? ==> store.items == old(store.items) - {TokenKey}
    ensures response.Failure? ==> store.items == old(store.items)
  {
    r := response;
    if response.Success? {
      store.RemoveItem(TokenKey);
    }
  }

  /** `getUserInfo`: the fetched user is cached as text. */
  method GetUserInfo(store: Store, response: Result<User, RequestError>) returns (r: Result<User, RequestError>)
    modifies store
    ensures r == response
    ensures response.Success? ==> store.items == old(store.items)[UserKey := EncodeUser(response.value)]
    ensures response.Failure? ==> store.items == old(store.items)
  {
    r := response;
    if response.Success? {
      store.SetItem(UserKey, EncodeUser(response.value));
    }
  }

  /** `isLoggedIn`: a non-empty token is stored. */
  predicate IsLoggedIn(items: map<string, string>) {
    HasText(items, TokenKey)
  }

  /**
   * `getCurrentUser`: no user without a non-empty cached text; a cached
   * text that does not parse makes the call throw.
   */
  function GetCurrentUser(items: map<string, string>): (r: Result<Option<User>, RequestError>)
    ensures !HasText(items, UserKey) ==> r == Success(None)
    ensures r.Success? && r.value.Some? ==> HasText(items, UserKey) && ParseUser(items[UserKey]) == r.value
    ensures r.Failure? <==> HasText(items, UserKey) && ParseUser(items[UserKey]).None?
  {
    if !HasText(items, UserKey) then Success(None)
    else match ParseUser(items[UserKey])
      case None => Failure(PlainError)
      case Some(u) => Success(Some(u))
  }

  method SaveUser(store: Store, user: User)
    modifies store
    ensures store.items == old(store.items)[UserKey := EncodeUser(user)]
  {
    store.SetItem(UserKey, EncodeUser(user));
  }

  method ClearUser(store: Store)
    modifies store
    ensures store.items == old(store.items) - {UserKey}
  {
    store.RemoveItem(UserKey);
  }

  /** `clearAuth`: both the token and the cached user go; every other key stays. */
  method ClearAuth(store: Store)
    modifies store
    ensures store.items == old(store.items) - {TokenKey, UserKey}
  {
    store.RemoveItem(TokenKey);
    store.RemoveItem(UserKey);
    assert store.items == old(store.items) - {TokenKey} - {UserKey};
  }

  /** A saved user is read back as itself. */
  lemma SavedUserReadBack(items: map<string, string>, user: User)
    ensures GetCurrentUser(items[UserKey := EncodeUser(user)]) == Success(Some(user))
  {
    ParseEncodedUser(user);
  }

  /** After `clearAuth` nobody is logged in and no user is cached. */
  lemma ClearedAuthIsLoggedOut(items: map<string, string>)
    ensures !IsLoggedIn(items - {TokenKey, UserKey})
    ensures GetCurrentUser(items - {TokenKey, UserKey}) == Success(None)
  {
  }

  /** A stored token counts as a login exactly when it is non-empty. */
  lemma StoredTokenLogsIn(items: map<string, string>, token: string)
    ensures IsLoggedIn(items[TokenKey := token]) <==> token != ""
  {
  }
}
