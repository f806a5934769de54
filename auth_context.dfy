/**
 * The login state shared by the whole client, and how it is kept in step
 * with local storage: seeded from storage, confirmed with the server on
 * mount, and written through on login and logout.
 */
module AuthContext {
  import opened Wrappers
  import opened Json
  import opened Http
  import opened Users
  import opened Storage
  import opened AuthService

  const CheckTokenPath := "/users/check-token"
  const MePath := "/users/me"

  /** The user the provider starts with: the cached one, none when absent or unreadable. */
  function InitialUser(items: map<string, string>): (r: Option<User>)
    ensures GetCurrentUser(items).Success? ==> r == GetCurrentUser(items).value
    ensures GetCurrentUser(items).Failure? ==> r == None
  {
    match GetCurrentUser(items)
    case Success(u) => u
    case Failure(_) => None
  }

  /** After a login, a provider built over the same storage starts as that user. */
  lemma LoginSurvivesReload(items: map<string, string>, user: User, token: string)
    requires token != ""
    ensures var after := items[UserKey := EncodeUser(user)][TokenKey := token];
      InitialUser(after) == Some(user) && IsLoggedIn(after)
  {
    var saved := items[UserKey := EncodeUser(user)];
    SavedUserReadBack(items, user);
    assert saved[TokenKey := token][UserKey] == saved[UserKey];
  }

  /**
   * Before the check settles the two initial readings can disagree: a
   * cached user with no token starts logged out yet with a user.
   */
  lemma CachedUserWithoutToken(user: User)
    ensures var items := map[UserKey := EncodeUser(user)];
      InitialUser(items) == Some(user) && !IsLoggedIn(items)
  {
    SavedUserReadBack(map[], user);
    assert map[UserKey := EncodeUser(user)] == map[][UserKey := EncodeUser(user)];
  }

  class AuthProvider {
    const store: Store
    var user: Option<User>
    var isLoggedIn: bool
    var isLoading: bool

    /** The provider's state says what storage says: the same login and, if any, the same user. */
    ghost predicate Agrees()
      reads this, store
    {
      && (isLoggedIn <==> IsLoggedIn(store.items))
      && (user.Some? ==> GetCurrentUser(store.items) == Success(user))
    }

    constructor (store: Store)
      ensures this.store == store
      ensures user == InitialUser(store.items) && isLoggedIn == IsLoggedIn(store.items) && isLoading
      ensures Agrees()
    {
      this.store := store;
      user := InitialUser(store.items);
      isLoggedIn := IsLoggedIn(store.items);
      isLoading := true;
    }

    /**
     * The check on mount. Without a token nothing is asked and the state
     * is logged out. Otherwise the token is checked, then the user fetched
     * and cached; if either call fails, storage is cleared. Returns the
     * paths asked for, in order. Afterwards the state agrees with storage.
     */
    method CheckLogin(check: Result<Json, RequestError>, me: Result<User, RequestError>) returns (asked: seq<string>)
      modifies this`user, this`isLoggedIn, this`isLoading, store
      ensures !isLoading && Agrees()
      ensures isLoggedIn <==> user.Some?
      ensures !HasText(old(store.items), TokenKey) ==>
        asked == [] && !isLoggedIn && user == None && store.items == old(store.items)
      ensures HasText(old(store.items), TokenKey) && check.Failure? ==>
        asked == [CheckTokenPath] && !isLoggedIn && user == None && store.items == old(store.items) - {TokenKey, UserKey}
      ensures HasText(old(store.items), TokenKey) && check.Success? && me.Failure? ==>
        asked == [CheckTokenPath, MePath] && !isLoggedIn && user == None && store.items == old(store.items) - {TokenKey, UserKey}
      ensures HasText(old(store.items), TokenKey) && check.Success? && me.Success? ==>
        asked == [CheckTokenPath, MePath] && isLoggedIn && user == Some(me.value)
        && store.items == old(store.items)[UserKey := EncodeUser(me.value)]
    {
      if !HasText(store.items, TokenKey) {
        isLoggedIn, user, isLoading := false, None, false;
        return [];
      }
      asked := [CheckTokenPath];
      var failed := check.Failure?;
      if !failed {
        asked := asked + [MePath];
        var fetched := GetUserInfo(store, me);
        match fetched {
          case Success(u) =>
            SavedUserReadBack(old(store.items), u);
            user, isLoggedIn := Some(u), true;
          case Failure(_) =>
            failed := true;
        }
      }
      if failed {
        isLoggedIn, user := false, None;
        ClearAuth(store);
      }
      isLoading := false;
    }

    /**
     * `login(user, token)`: caches the user, stores the token and marks the
     * state logged in. It agrees with storage only for a non-empty token: an
     * empty one leaves the state logged in while storage says otherwise.
     */
    method Login(u: User, token: string)
      modifies this`user, this`isLoggedIn, store
      ensures user == Some(u) && isLoggedIn
      ensures store.items == old(store.items)[UserKey := EncodeUser(u)][TokenKey := token]
      ensures Agrees() <==> token != ""
    {
      SaveUser(store, u);
      store.SetItem(TokenKey, token);
      user, isLoggedIn := Some(u), true;
      LoginSurvivesReload(old(store.items), u, if token != "" then token else "t");
      SavedUserReadBack(old(store.items), u);
      assert store.items[UserKey] == EncodeUser(u);
    }

    /** `logout`: storage is cleared and the state logged out; no request is sent. */
    method Logout()
      modifies this`user, this`isLoggedIn, store
      ensures user == None && !isLoggedIn
      ensures store.items == old(store.items) - {TokenKey, UserKey}
      ensures Agrees()
    {
      ClearAuth(store);
      user, isLoggedIn := None, false;
    }
  }
}
