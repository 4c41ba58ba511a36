/** The login page: the sign-in and sign-up forms, their input checks, and
    where a successful sign-in leads. */
module LoginPage {
  import opened Common
  import Guard

  /** What a form submission does before any call: refuse with a message, or go on. */
  datatype Check = EnterCredentials | PasswordTooShort | Proceed

  /** `handleLogin`'s check: both fields must be filled in; nothing else is checked. */
  function LoginCheck(username: string, password: string): (c: Check)
    ensures c == EnterCredentials <==> username == "" || password == ""
    ensures c == Proceed <==> username != "" && password != ""
  {
    if username == "" || password == "" then EnterCredentials else Proceed
  }

  /** The least number of characters a new password must have. */
  const MinPasswordLength := 6

  /** `handleSignup`'s checks, the emptiness test first. */
  function SignupCheck(username: string, password: string): (c: Check)
    ensures c == EnterCredentials <==> username == "" || password == ""
    ensures c == PasswordTooShort <==> username != "" && password != "" && |password| < MinPasswordLength
    ensures c == Proceed <==> username != "" && |password| >= MinPasswordLength
  {
    if username == "" || password == "" then EnterCredentials
    else if |password| < MinPasswordLength then PasswordTooShort
    else Proceed
  }

  /** The length rule is the sign-up form's only: a short password is refused
      there and passes the sign-in form's check; a form the sign-up check lets
      through, the sign-in check does too. */
  lemma LengthRuleOnlyForSignup(username: string, password: string)
    requires username != "" && 0 < |password| < MinPasswordLength
    ensures SignupCheck(username, password) == PasswordTooShort
    ensures LoginCheck(username, password) == Proceed
  {
  }

  lemma SignupStricter(username: string, password: string)
    ensures SignupCheck(username, password) == Proceed ==> LoginCheck(username, password) == Proceed
    ensures LoginCheck(username, password) == EnterCredentials <==> SignupCheck(username, password) == EnterCredentials
  {
  }

  /** `from`: the path the route guard remembered, or '/' when there is none. */
  function RedirectTarget(from: Option<string>): (r: string)
    ensures Truthy(from) ==> r == from.value
    ensures !Truthy(from) ==> r == "/"
  {
    if Truthy(from) then from.value else "/"
  }

  /** A signed-out visitor sent to the login page from a private path comes back
      to that same path after signing in. */
  lemma BackWhereItCameFrom(s: Guard.Session, path: string, wildcard: (string, string) -> bool)
    requires !s.loading && !s.signedIn && path !in Guard.PublicRoutes && path != ""
    ensures Guard.Decide(s, path, wildcard).Some?
    ensures Guard.Decide(s, path, wildcard).value.to == "/login"
    ensures RedirectTarget(Guard.Decide(s, path, wildcard).value.from) == path
  {
    Guard.SignedOut(s, path, wildcard);
  }

  /** The calls into the authentication context. */
  datatype Request = SignIn(username: string, password: string) | SignUp(username: string, password: string)

  datatype Notice = MissingCredentials | TooShort | LoginFailed(message: string) | LoginSucceeded
    | SignupFailed(message: string) | SignupSucceeded

  /** `navigate(from, { replace: true })`. */
  datatype Navigation = Replace(to: string)

  class LoginPage {
    var username: string
    var password: string
    var loading: bool
    var from: Option<string>
    var requests: seq<Request>
    var notices: seq<Notice>
    var navigations: seq<Navigation>

    /** The page opened with the router state `from`. */
    constructor(from: Option<string>)
      ensures username == "" && password == "" && !loading && this.from == from
      ensures requests == [] && notices == [] && navigations == []
    {
      username := "";
      password := "";
      loading := false;
      this.from := from;
      requests := [];
      notices := [];
      navigations := [];
    }

    /** Typing into the two inputs, which both tabs share. */
    method Enter(name: string, secret: string)
      modifies this
      ensures username == name && password == secret
      ensures loading == old(loading) && from == old(from)
      ensures requests == old(requests) && notices == old(notices) && navigations == old(navigations)
    {
      username := name;
      password := secret;
    }

    /** `handleLogin`: `error` is what sign-in answers, `None` on success. With a
        field empty there is no call; a success replaces the page by `from`. */
    method HandleLogin(error: Option<string>)
      modifies this
      ensures username == old(username) && password == old(password) && from == old(from) && !loading
      ensures LoginCheck(username, password) == EnterCredentials ==>
        && requests == old(requests) && notices == old(notices) + [MissingCredentials]
        && navigations == old(navigations)
      ensures LoginCheck(username, password) == Proceed ==>
        requests == old(requests) + [SignIn(username, password)]
      ensures LoginCheck(username, password) == Proceed && error.Some? ==>
        notices == old(notices) + [LoginFailed(error.value)] && navigations == old(navigations)
      ensures LoginCheck(username, password) == Proceed && error.None? ==>
        && notices == old(notices) + [LoginSucceeded]
        && navigations == old(navigations) + [Replace(RedirectTarget(from))]
    {
      if username == "" || password == "" {
        notices := notices + [MissingCredentials];
        loading := false;
        return;
      }
      loading := true;
      requests := requests + [SignIn(username, password)];
      loading := false;
      if error.Some? {
        notices := notices + [LoginFailed(error.value)];
      } else {
        notices := notices + [LoginSucceeded];
        navigations := navigations + [Replace(RedirectTarget(from))];
      }
    }

    /** `handleSignup`: `error` is what sign-up answers, `None` on success.
        Sign-up never navigates. */
    method HandleSignup(error: Option<string>)
      modifies this
      ensures username == old(username) && password == old(password) && from == old(from) && !loading
      ensures navigations == old(navigations)
      ensures SignupCheck(username, password) == EnterCredentials ==>
        requests == old(requests) && notices == old(notices) + [MissingCredentials]
      ensures SignupCheck(username, password) == PasswordTooShort ==>
        requests == old(requests) && notices == old(notices) + [TooShort]
      ensures SignupCheck(username, password) == Proceed ==>
        && requests == old(requests) + [SignUp(username, password)]
        && notices == old(notices) + [if error.Some? then SignupFailed(error.value) else SignupSucceeded]
    {
      if username == "" || password == "" {
        notices := notices + [MissingCredentials];
        loading := false;
        return;
      }
      if |password| < MinPasswordLength {
        notices := notices + [TooShort];
        loading := false;
        return;
      }
      loading := true;
      requests := requests + [SignUp(username, password)];
      loading := false;
      if error.Some? {
        notices := notices + [SignupFailed(error.value)];
      } else {
        notices := notices + [SignupSucceeded];
      }
    }
  }
}
