/** The session provider: the signed-in user derived from the persisted
    token, the last login error and the loading flag, with restore-at-mount,
    login and logout. The token's claims come from a decoder passed in as a
    function (`jwt`), and the clock as a millisecond count (`now`). */
module AuthContext {
  import opened Domain
  import Text
  import Api

  /** The claims the provider reads from a decoded token (section 4.1 of
      RFC 7519); any of them may be missing at run time. `exp` is a
      NumericDate in seconds. */
  datatype Claims = Claims(sub: string, email: Option<string>, role: Option<string>, exp: Option<int>)

  /** The signed-in user. `role` is the claim's string as decoded. */
  datatype User = User(id: string, email: string, role: string, name: string)

  /** The role the views act on: `user?.role === 'OPERATOR'` and
      `user?.role === 'APPROVER'` hold exactly for a signed-in user carrying
      that role string; no user, or any other string, is neither. */
  function ViewerOf(u: Option<User>): (v: Option<Role>)
    ensures v == Some(Operator) <==> u.Some? && u.value.role == "OPERATOR"
    ensures v == Some(Approver) <==> u.Some? && u.value.role == "APPROVER"
  {
    if u.None? then None else RoleOf(u.value.role)
  }

  /** `decoded.exp * 1000 < Date.now()`: the seconds claim against the
      millisecond clock, strictly. A missing claim compares NaN, which is
      never less, so such a token never expires here. */
  predicate Expired(exp: Option<int>, now: int) {
    exp.Some? && exp.value * 1000 < now
  }

  /** A token is accepted up to and including the millisecond of its expiry,
      and rejected one millisecond later. */
  lemma ExpiryBoundary(exp: int)
    ensures !Expired(Some(exp), exp * 1000)
    ensures Expired(Some(exp), exp * 1000 + 1)
  {
  }

  /** The user built from valid claims: the subject as id, the email (or the
      subject when there is none), the role (or OPERATOR), and as name the
      part of the email before its first '@' (or 'User' when that is empty). */
  function ToUser(c: Claims): (u: User)
    ensures u.id == c.sub
    ensures u.email == if Stored(c.email) then c.email.value else c.sub
    ensures u.role == if Stored(c.role) then c.role.value else "OPERATOR"
    ensures u.name != "" && '@' !in u.name
    ensures u.name != "User" ==> Stored(c.email) && u.name <= c.email.value &&
                                 (u.name == c.email.value || c.email.value[|u.name|] == '@')
    ensures Stored(c.email) && c.email.value[0] != '@' ==> u.name == Text.BeforeFirst(c.email.value, '@')
    ensures !Stored(c.email) ==> u.name == "User"
  {
    var local := if c.email.Some? then Text.BeforeFirst(c.email.value, '@') else "";
    User(
      id := c.sub,
      email := Api.OrElse(c.email, c.sub),
      role := Api.OrElse(c.role, "OPERATOR"),
      name := if local != "" then local else "User")
  }

  /** What `decodeAndSetUser` yields: nothing for an undecodable or expired
      token, the claims' user otherwise. */
  function DecodeUser(decoded: Option<Claims>, now: int): (u: Option<User>)
    ensures u.None? <==> decoded.None? || Expired(decoded.value.exp, now)
    ensures u.Some? ==> u.value == ToUser(decoded.value)
  {
    if decoded.None? || Expired(decoded.value.exp, now) then None else Some(ToUser(decoded.value))
  }

  /** A fresh, unexpired token whose claims carry an email and a role yields
      a user with exactly that email and role. */
  lemma ClaimsRoundTrip(c: Claims, now: int)
    requires Stored(c.email) && Stored(c.role) && !Expired(c.exp, now)
    ensures DecodeUser(Some(c), now).Some?
    ensures DecodeUser(Some(c), now).value.email == c.email.value
    ensures DecodeUser(Some(c), now).value.role == c.role.value
    ensures DecodeUser(Some(c), now).value.id == c.sub
  {
  }

  /** The provider's observable state; `token` is the persisted entry. */
  datatype AuthState = AuthState(token: Option<string>, user: Option<User>, error: Option<string>, isLoading: bool)

  /** The mount-time effect: with a stored token, the user becomes what the
      token decodes to (and a rejected token is purged); without one the
      user is left alone. Loading ends in both cases. */
  function RestoreSpec(st: AuthState, jwt: string -> Option<Claims>, now: int): (r: AuthState)
    ensures !r.isLoading && r.error == st.error
    ensures !Stored(st.token) ==> r.user == st.user && r.token == st.token
    ensures Stored(st.token) ==> r.user == DecodeUser(jwt(st.token.value), now)
    ensures Stored(r.token) ==> r.token == st.token && r.user.Some?
  {
    if Stored(st.token) then
      var u := DecodeUser(jwt(st.token.value), now);
      st.(token := if u.None? then None else st.token, user := u, isLoading := false)
    else
      st.(isLoading := false)
  }

  /** What a thrown value looks like to the `catch` block. */
  datatype Thrown = ErrorObject(message: string) | NonError

  const InvalidToken: string := "Invalid token received"
  const DefaultLoginError: string := "Invalid credentials. Please try again."

  /** `err instanceof Error ? err.message : <default>`. */
  function ErrorMessage(t: Thrown): (m: string)
    ensures t.ErrorObject? ==> m == t.message
    ensures t.NonError? ==> m == DefaultLoginError
  {
    match t
    case ErrorObject(m) => m
    case NonError => DefaultLoginError
  }

  /** The settled credential exchange: a token, or the value it threw. */
  datatype Exchange = Issued(accessToken: string) | Threw(thrown: Thrown)

  /** The state after `login` and the value it rethrows, if any. */
  datatype LoginResult = LoginResult(state: AuthState, rethrown: Option<Thrown>)

  function LoginSpec(st: AuthState, ex: Exchange, jwt: string -> Option<Claims>, now: int): LoginResult {
    match ex
    case Issued(token) =>
      var u := DecodeUser(jwt(token), now);
      if u.Some? then
        LoginResult(st.(token := Some(token), user := u, error := None, isLoading := false), None)
      else
        LoginResult(st.(token := None, error := Some(InvalidToken), isLoading := false),
                    Some(ErrorObject(InvalidToken)))
    case Threw(t) =>
      LoginResult(st.(error := Some(ErrorMessage(t)), isLoading := false), Some(t))
  }

  function LogoutSpec(st: AuthState): (r: AuthState)
    ensures r.user.None? && r.token.None? && r.error.None?
    ensures r.isLoading == st.isLoading
  {
    st.(token := None, user := None, error := None)
  }

  /** A good token is stored, becomes the user, and nothing is thrown. */
  lemma LoginAccepted(st: AuthState, token: string, jwt: string -> Option<Claims>, now: int)
    requires DecodeUser(jwt(token), now).Some?
    ensures var r := LoginSpec(st, Issued(token), jwt, now);
      r.rethrown.None? && r.state.token == Some(token) && r.state.user == DecodeUser(jwt(token), now) &&
      r.state.error.None? && !r.state.isLoading
  {
  }

  /** A token that does not decode to a user leaves no token stored, reports
      and rethrows 'Invalid token received', and does not touch the user. */
  lemma LoginBadToken(st: AuthState, token: string, jwt: string -> Option<Claims>, now: int)
    requires DecodeUser(jwt(token), now).None?
    ensures var r := LoginSpec(st, Issued(token), jwt, now);
      r.state.token.None? && r.state.error == Some(InvalidToken) && r.rethrown.Some? &&
      r.state.user == st.user && !r.state.isLoading
  {
  }

  /** A failed exchange stores nothing, reports the thrown message (or the
      default), rethrows, and does not touch the user. */
  lemma LoginExchangeFailed(st: AuthState, t: Thrown, jwt: string -> Option<Claims>, now: int)
    ensures var r := LoginSpec(st, Threw(t), jwt, now);
      r.state.token == st.token && r.state.user == st.user && r.rethrown == Some(t) &&
      r.state.error == Some(if t.ErrorObject? then t.message else DefaultLoginError)
  {
  }

  /** Logging out twice is logging out once. */
  lemma LogoutIdempotent(st: AuthState)
    ensures LogoutSpec(LogoutSpec(st)) == LogoutSpec(st)
    ensures LogoutSpec(st).user.None? && LogoutSpec(st).token.None?
  {
  }

  /** After a successful login, restoring at the same instant (a reload)
      finds the same user from the stored token. */
  lemma {:induction false} LoginThenRestore(st: AuthState, token: string, jwt: string -> Option<Claims>, now: int)
    requires DecodeUser(jwt(token), now).Some?
    ensures var after := LoginSpec(st, Issued(token), jwt, now).state;
      RestoreSpec(after, jwt, now).user == after.user && RestoreSpec(after, jwt, now).token == after.token
  {
    var after := LoginSpec(st, Issued(token), jwt, now).state;
    assert after.token == Some(token);
  }

  /** An expired stored token restores to no user and is purged. */
  lemma RestoreExpired(st: AuthState, jwt: string -> Option<Claims>, now: int)
    requires Stored(st.token) && jwt(st.token.value).Some?
    requires Expired(jwt(st.token.value).value.exp, now)
    ensures RestoreSpec(st, jwt, now).user.None? && RestoreSpec(st, jwt, now).token.None?
    ensures !RestoreSpec(st, jwt, now).isLoading
  {
  }

  /** The provider: the persisted token lives in the shared store. */
  class Session {
    var user: Option<User>
    var error: Option<string>
    var isLoading: bool
    const store: TokenStore

    function State(): AuthState
      reads this, store
    {
      AuthState(store.accessToken, user, error, isLoading)
    }

    /** `isAuthenticated: !!user`. */
    function IsAuthenticated(): (b: bool)
      reads this
      ensures b <==> user.Some?
    {
      user.Some?
    }

    constructor (store: TokenStore)
      ensures this.store == store
      ensures user.None? && error.None? && isLoading
    {
      this.store := store;
      user := None;
      error := None;
      isLoading := true;
    }

    /** `decodeAndSetUser`: decode, check expiry, build the user; a rejected
        token is removed from storage. */
    method DecodeAndSetUser(token: string, jwt: string -> Option<Claims>, now: int) returns (u: Option<User>)
      modifies store
      ensures u == DecodeUser(jwt(token), now)
      ensures store.accessToken == if u.None? then None else old(store.accessToken)
    {
      var decoded := jwt(token);
      if decoded.None? {
        store.accessToken := None;
        return None;
      }
      var claims := decoded.value;
      if Expired(claims.exp, now) {
        store.accessToken := None;
        return None;
      }
      u := Some(ToUser(claims));
    }

    /** The mount-time effect. */
    method Restore(jwt: string -> Option<Claims>, now: int)
      modifies this, store
      ensures State() == RestoreSpec(old(State()), jwt, now)
    {
      var token := store.accessToken;
      if token.Some? && token.value != "" {
        var u := DecodeAndSetUser(token.value, jwt, now);
        user := u;
      }
      isLoading := false;
    }

    /** `login`: the exchange is the outcome of the returned request. */
    method Login(username: string, password: string, ex: Exchange, jwt: string -> Option<Claims>, now: int)
      returns (issued: Api.Request, rethrown: Option<Thrown>)
      modifies this, store
      ensures issued == Api.Login(username, password)
      ensures LoginResult(State(), rethrown) == LoginSpec(old(State()), ex, jwt, now)
    {
      isLoading := true;
      error := None;
      issued := Api.Login(username, password);
      match ex {
        case Issued(token) =>
          store.accessToken := Some(token);
          var u := DecodeAndSetUser(token, jwt, now);
          if u.Some? {
            user := u;
            rethrown := None;
          } else {
            error := Some(InvalidToken);
            rethrown := Some(ErrorObject(InvalidToken));
          }
        case Threw(t) =>
          error := Some(ErrorMessage(t));
          rethrown := Some(t);
      }
      isLoading := false;
    }

    method Logout()
      modifies this, store
      ensures State() == LogoutSpec(old(State()))
    {
      store.accessToken := None;
      user := None;
      error := None;
    }
  }
}
