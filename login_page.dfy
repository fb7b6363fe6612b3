/** The sign-in page: the post-login target taken from the navigation state,
    the form's field checks, and the submit handler that hands the
    credentials to the session provider. The schema library's email test is
    a parameter (`isEmail`). */
module LoginPage {
  import opened Domain
  import Api
  import AuthContext

  const DefaultTarget: string := "/dashboard"
  const BadEmail: string := "Please enter a valid email address"
  const NoPassword: string := "Password is required"
  const BadCredentials: string := "Invalid email or password. Please try again."

  /** `location.state?.from?.pathname || '/dashboard'`. */
  function From(fromPath: Option<string>): (target: string)
    ensures Stored(fromPath) ==> target == fromPath.value
    ensures !Stored(fromPath) ==> target == DefaultTarget
    ensures target != ""
  {
    Api.OrElse(fromPath, DefaultTarget)
  }

  /** The form's messages: one per field, and one for a failed sign-in. */
  datatype LoginErrors = LoginErrors(email: Option<string>, password: Option<string>, general: Option<string>)

  const NoErrors: LoginErrors := LoginErrors(None, None, None)

  /** The schema's verdict: both fields are checked, every issue reported,
      and it never sets the general message. */
  function Validate(email: string, password: string, isEmail: string -> bool): (errs: LoginErrors)
    ensures errs.email.Some? <==> !isEmail(email)
    ensures errs.email.Some? ==> errs.email.value == BadEmail
    ensures errs.password.Some? <==> password == ""
    ensures errs.password.Some? ==> errs.password.value == NoPassword
    ensures errs.general.None?
  {
    LoginErrors(if isEmail(email) then None else Some(BadEmail),
                if password == "" then Some(NoPassword) else None,
                None)
  }

  /** The schema accepts exactly a well-formed email with a password. */
  lemma ValidateAccepts(email: string, password: string, isEmail: string -> bool)
    ensures Validate(email, password, isEmail) == NoErrors <==> isEmail(email) && password != ""
  {
  }

  class LoginForm {
    var email: string
    var password: string
    var errors: LoginErrors
    /** Where the page sent the browser, once it has. */
    var navigatedTo: Option<string>
    const fromPath: Option<string>
    const session: AuthContext.Session

    constructor (session: AuthContext.Session, fromPath: Option<string>)
      ensures this.session == session && this.fromPath == fromPath
      ensures email == "" && password == "" && errors == NoErrors && navigatedTo.None?
    {
      this.session := session;
      this.fromPath := fromPath;
      email := "";
      password := "";
      errors := NoErrors;
      navigatedTo := None;
    }

    /** `handleSubmit`: the messages are cleared; a failing check records
        its messages and stops; otherwise the session's login runs with the
        email as the user name (`ex` is the settled credential exchange). A
        login that throws leaves only the general message and stays on the
        page; one that returns navigates to the target. */
    method HandleSubmit(isEmail: string -> bool, ex: AuthContext.Exchange,
                        jwt: string -> Option<AuthContext.Claims>, now: int)
      returns (issued: Option<Api.Request>)
      modifies this`errors, this`navigatedTo, session, session.store
      ensures var valid := Validate(email, password, isEmail) == NoErrors;
        && (!valid ==> issued.None? && errors == Validate(email, password, isEmail))
        && (!valid ==> session.State() == old(session.State()) && navigatedTo == old(navigatedTo))
        && (valid ==> issued == Some(Api.Login(email, password)))
        && (valid ==> session.State() == AuthContext.LoginSpec(old(session.State()), ex, jwt, now).state)
      ensures var result := AuthContext.LoginSpec(old(session.State()), ex, jwt, now);
        issued.Some? ==>
          && (result.rethrown.Some? ==> errors == LoginErrors(None, None, Some(BadCredentials)))
          && (result.rethrown.Some? ==> navigatedTo == old(navigatedTo))
          && (result.rethrown.None? ==> errors == NoErrors && navigatedTo == Some(From(fromPath)))
    {
      errors := NoErrors;
      var result := Validate(email, password, isEmail);
      if result != NoErrors {
        errors := result;
        return None;
      }
      var request, rethrown := session.Login(email, password, ex, jwt, now);
      issued := Some(request);
      if rethrown.Some? {
        errors := LoginErrors(None, None, Some(BadCredentials));
      } else {
        navigatedTo := Some(From(fromPath));
      }
    }
  }

  /** The page leaves exactly when the exchange issued a token that decodes,
      unexpired, to a user. */
  lemma NavigatesIffSignedIn(st: AuthContext.AuthState, ex: AuthContext.Exchange,
                             jwt: string -> Option<AuthContext.Claims>, now: int)
    ensures AuthContext.LoginSpec(st, ex, jwt, now).rethrown.None? <==>
      ex.Issued? && AuthContext.DecodeUser(jwt(ex.accessToken), now).Some?
    ensures AuthContext.LoginSpec(st, ex, jwt, now).rethrown.None? ==>
      AuthContext.LoginSpec(st, ex, jwt, now).state.user.Some?
  {
  }
}
