/**
 * The authentication context (`AuthProvider`): the signed-in user, whether
 * the session is authenticated, and whether a check is still running. It
 * shares the client and its local storage with the rest of the application.
 * React state updates are modelled as immediate assignments.
 */
module AuthContext {
  import opened Wrappers
  import opened Text
  import opened Records
  import opened Storage
  import opened Api

  const InvalidServerResponse: string := "Неверный ответ сервера"
  const NotAdministrator: string := "У вас нет прав администратора"

  /**
   * `isAdminUser(user)`: the live check admits every user that is present.
   * The role comparison after its `return true` is never reached.
   */
  predicate IsAdminUser(u: Option<User>) {
    u.Some?
  }

  /** `isAdminUser` rejects only the missing user. */
  lemma IsAdminUserIff(u: Option<User>)
    ensures !IsAdminUser(None)
    ensures IsAdminUser(u) <==> u != None
    ensures forall v: User :: IsAdminUser(Some(v))
  {
  }

  /** What `apiService.getCurrentUser()` yields while the token is, or is not, truthy. */
  function CurrentUserOutcome(tokenTruthy: bool, x: Exchange<Option<User>>): (r: Result<Option<User>, string>)
    ensures !tokenTruthy ==> r == Failure(NoTokenError)
    ensures tokenTruthy ==> r == Outcome(x)
  {
    if tokenTruthy then Outcome(x) else Failure(NoTokenError)
  }

  /**
   * The user `login` settles on: the one `/users/me` returned, or the login
   * response's own user when that request failed.
   */
  function UserWithRole(p: AuthPayload, me: Exchange<Option<User>>): (u: Option<User>)
    ensures Outcome(me).Failure? ==> u == p.user
    ensures Outcome(me).Success? ==> u == Outcome(me).value
  {
    match Outcome(me)
    case Success(v) => v
    case Failure(_) => p.user
  }

  /** What the context's `login` resolves to or throws, given what the client's `login` did. */
  function AfterClientLogin(client: Result<AuthPayload, string>, me: Exchange<Option<User>>): Result<AuthPayload, string> {
    match client
    case Failure(m) => Failure(m)
    case Success(p) =>
      var u := UserWithRole(p, me);
      if !IsAdminUser(u) then Failure(NotAdministrator) else Success(p.(user := u))
  }

  /** What the context's `login` resolves to or throws. */
  function LoginOutcome(x: Exchange<AuthPayload>, me: Exchange<Option<User>>): Result<AuthPayload, string> {
    AfterClientLogin(LoginResult(x), me)
  }

  /**
   * The context's `login` succeeds exactly when the client's login does and
   * either `/users/me` fails (the login response's user is then kept) or it
   * returns a user; the result is the login response with that user.
   */
  lemma LoginOutcomeIff(x: Exchange<AuthPayload>, me: Exchange<Option<User>>)
    ensures LoginOutcome(x, me).Success? <==>
      LoginResult(x).Success? && (Outcome(me).Failure? || Outcome(me).value.Some?)
    ensures LoginOutcome(x, me).Success? ==>
      LoginOutcome(x, me) == Success(LoginResult(x).value.(user := UserWithRole(LoginResult(x).value, me)))
    ensures LoginResult(x).Failure? ==> LoginOutcome(x, me) == LoginResult(x)
    ensures LoginResult(x).Success? && Outcome(me) == Success(None) ==> LoginOutcome(x, me) == Failure(NotAdministrator)
  {
    LoginSucceedsIff(x);
  }

  /** A failing `/users/me` after a good login still signs in, with the login response's user. */
  lemma FallbackToLoginUser(x: Exchange<AuthPayload>, me: Exchange<Option<User>>)
    requires LoginResult(x).Success? && Outcome(me).Failure?
    ensures LoginOutcome(x, me) == Success(LoginResult(x).value)
  {
    LoginSucceedsIff(x);
    var p := LoginResult(x).value;
    assert p.(user := p.user) == p;
  }

  class AuthProvider {
    const api: ApiService
    var user: Option<User>
    var isAuthenticated: bool
    var loading: bool

    /** The storage the client and the context share. */
    function Store(): LocalStorage
      reads this
    {
      api.storage
    }

    /** The signed-out state: no user, not authenticated, no token, and neither stored key. */
    predicate SignedOut()
      reads this, api, api.storage
    {
      user == None && !isAuthenticated && api.token == None
      && AuthTokenKey !in api.storage.items && UserKey !in api.storage.items
    }

    /**
     * Signed in as `p.user` after a login that started from storage
     * `before`: the token is `p.jwt`, or gone when `/users/me` answered 401,
     * and the user is stored.
     */
    predicate SignedInAs(p: AuthPayload, tokenCleared: bool, before: map<string, string>)
      reads this, api, api.storage
    {
      && p.user.Some? && user == p.user && isAuthenticated
      && (tokenCleared || p.jwt.Some?)
      && api.token == (if tokenCleared then None else p.jwt)
      && api.storage.items ==
        (if tokenCleared then before - {AuthTokenKey} else before[AuthTokenKey := p.jwt.value])[UserKey := SerializeUser(p.user.value)]
    }

    /** The initial state: no user, not authenticated, and a check pending. */
    constructor (api: ApiService)
      ensures this.api == api
      ensures user == None && !isAuthenticated && loading
    {
      this.api := api;
      user := None;
      isAuthenticated := false;
      loading := true;
    }

    /**
     * `logout()`: signs out from any state. The client's token and the two
     * stored keys are cleared; `loading` and every other key are kept.
     */
    method Logout()
      modifies this, api, api.storage
      ensures SignedOut()
      ensures api.storage.items == old(api.storage.items) - {AuthTokenKey, UserKey}
      ensures loading == old(loading)
    {
      api.Logout();
      user := None;
      isAuthenticated := false;
      Store().RemoveItem(UserKey);
      Store().RemoveItem(AuthTokenKey);
    }

    /**
     * `checkAuthStatus()`: with a stored token and a stored user, the token is
     * installed and `/users/me` decides; a user it returns is installed and
     * stored again, anything else signs out. Without both keys it signs out
     * without a request. `loading` ends false.
     */
    method CheckAuthStatus(me: Exchange<Option<User>>) returns (sent: Option<OutgoingRequest>)
      modifies this, api, api.storage
      ensures !loading
      ensures !(TruthyField(old(Store().GetItem(AuthTokenKey))) && TruthyField(old(Store().GetItem(UserKey)))) ==>
        sent == None && SignedOut() && api.storage.items == old(api.storage.items) - {AuthTokenKey, UserKey}
      ensures TruthyField(old(Store().GetItem(AuthTokenKey))) && TruthyField(old(Store().GetItem(UserKey))) ==>
        sent == Some(BuildRequest(api.baseUrl, CurrentUserPath, old(Store().GetItem(AuthTokenKey)), NoOptions))
      ensures TruthyField(old(Store().GetItem(AuthTokenKey))) && TruthyField(old(Store().GetItem(UserKey))) ==>
        var o := Outcome(me);
        if o.Success? && o.value.Some? then
          && user == o.value && isAuthenticated && api.token == old(Store().GetItem(AuthTokenKey))
          && api.storage.items == old(api.storage.items)[UserKey := SerializeUser(o.value.value)]
        else SignedOut() && api.storage.items == old(api.storage.items) - {AuthTokenKey, UserKey}
    {
      var token := Store().GetItem(AuthTokenKey);
      var userData := Store().GetItem(UserKey);
      sent := None;
      if TruthyField(token) && TruthyField(userData) {
        api.SetToken(token);
        ghost var installed := api.storage.items;
        assert installed == old(api.storage.items);
        var current, request := api.GetCurrentUser(me);
        sent := request;
        if current.Failure? {
          Logout();
        } else if !IsAdminUser(current.value) {
          Logout();
        } else {
          user := current.value;
          isAuthenticated := true;
          Store().SetItem(UserKey, SerializeUser(current.value.value));
        }
      } else {
        Logout();
      }
      loading := false;
    }

    /**
     * `login(identifier, password)`: the client's login, then `/users/me`
     * (falling back to the login response's user), then the admin check. On
     * success the user is installed and stored and the result carries it;
     * every failure signs out and is rethrown. `loading` ends false.
     */
    method Login(identifier: string, password: string, x: Exchange<AuthPayload>, me: Exchange<Option<User>>)
      returns (r: Result<AuthPayload, string>)
      modifies this, api, api.storage
      ensures r == AfterClientLogin(LoginResult(x), me)
      ensures !loading
      ensures r.Failure? ==> SignedOut() && api.storage.items == old(api.storage.items) - {AuthTokenKey, UserKey}
      ensures r.Success? ==> SignedInAs(r.value, Unauthorized(me), old(api.storage.items))
    {
      loading := true;
      var response, _ := api.Login(identifier, password, x);
      if response.Failure? {
        if Unauthorized(x) {
          DiscardSession(old(api.storage.items), {AuthTokenKey, UserKey});
        } else {
          DiscardSession(old(api.storage.items), {AuthTokenKey});
        }
        r := response;
        loading := false;
        return;
      }
      var p := response.value;
      // The context's own check for a missing `jwt` or `user` cannot fire:
      // the client's login has already insisted on both.
      assert TruthyField(p.jwt) && p.user.Some?;
      r := InstallLoggedInUser(p, me, old(api.storage.items));
      loading := false;
    }

    /** `logout()` after some of the session's keys were already removed from `before`. */
    method DiscardSession(ghost before: map<string, string>, ghost removed: set<string>)
      requires removed <= {AuthTokenKey, UserKey} && api.storage.items == before - removed
      modifies this, api, api.storage
      ensures SignedOut() && api.storage.items == before - {AuthTokenKey, UserKey}
      ensures loading == old(loading)
    {
      RemoveAbsorbs(before, removed, {AuthTokenKey, UserKey});
      Logout();
    }

    /**
     * The part of `login` after the client's login succeeded: the token is
     * installed again, `/users/me` is asked for the user with its role
     * (falling back to `p.user`), and the admin check decides.
     */
    method InstallLoggedInUser(p: AuthPayload, me: Exchange<Option<User>>, ghost before: map<string, string>)
      returns (r: Result<AuthPayload, string>)
      requires TruthyField(p.jwt) && p.user.Some?
      requires api.storage.items == before[AuthTokenKey := p.jwt.value]
      modifies this, api, api.storage
      ensures r == AfterClientLogin(Success(p), me)
      ensures loading == old(loading)
      ensures r.Failure? ==> SignedOut() && api.storage.items == before - {AuthTokenKey, UserKey}
      ensures r.Success? ==> SignedInAs(r.value, Unauthorized(me), before)
    {
      api.SetToken(p.jwt);
      var current, _ := api.GetCurrentUser(me);
      var userWithRole := if current.Success? then current.value else p.user;
      assert userWithRole == UserWithRole(p, me);
      SetTwice(before, AuthTokenKey, p.jwt.value);
      RemoveAfterSet(before, AuthTokenKey, p.jwt.value, {AuthTokenKey, UserKey});
      if !IsAdminUser(userWithRole) {
        RemoveWithin(before[AuthTokenKey := p.jwt.value], {AuthTokenKey, UserKey}, {AuthTokenKey, UserKey});
        api.Logout();
        Logout();
        r := Failure(NotAdministrator);
        return;
      }
      if Unauthorized(me) {
        assert before - {AuthTokenKey, UserKey} == (before - {AuthTokenKey}) - {UserKey};
        SetAfterRemove(before - {AuthTokenKey}, UserKey, SerializeUser(userWithRole.value));
      }
      user := userWithRole;
      isAuthenticated := true;
      Store().SetItem(UserKey, SerializeUser(userWithRole.value));
      r := Success(p.(user := userWithRole));
    }

    /**
     * `refreshUser()`: nothing at all when not authenticated (it resolves to
     * `undefined`, `Success(None)` here). Otherwise `/users/me` decides: a
     * user is installed, stored and returned; a missing one signs out and
     * resolves to `undefined`; a failure signs out and is rethrown.
     */
    method RefreshUser(me: Exchange<Option<User>>) returns (r: Result<Option<User>, string>)
      modifies this, api, api.storage
      ensures loading == old(loading)
      ensures !old(isAuthenticated) ==>
        r == Success(None) && user == old(user) && !isAuthenticated && api.token == old(api.token)
        && api.storage.items == old(api.storage.items)
      ensures old(isAuthenticated) ==>
        var o := CurrentUserOutcome(old(api.IsAuthenticated()), me);
        if o.Success? && o.value.Some? then
          && r == o && user == o.value && isAuthenticated
          && api.token == old(api.token) && api.storage.items == old(api.storage.items)[UserKey := SerializeUser(o.value.value)]
        else
          && r == (if o.Success? then Success(None) else o)
          && SignedOut() && api.storage.items == old(api.storage.items) - {AuthTokenKey, UserKey}
    {
      if !isAuthenticated {
        r := Success(None);
        return;
      }
      var current, _ := api.GetCurrentUser(me);
      if current.Failure? {
        Logout();
        r := current;
        return;
      }
      if !IsAdminUser(current.value) {
        Logout();
        r := Success(None);
        return;
      }
      user := current.value;
      Store().SetItem(UserKey, SerializeUser(current.value.value));
      r := current;
    }
  }
}
