/** The magic-link callback (app/auth/callback/route.ts): it trades the `code`
    query parameter for a session, stores the session, reads the user's
    profile, and redirects to the callback error page, to profile completion,
    or to `/home` with a short-lived welcome cookie. */
module AuthCallback {
  import opened Common
  import opened Database
  import opened Services
  import CallbackErrorPage

  datatype Cookie = Cookie(name: string, value: string, path: string, maxAge: nat, httpOnly: bool, secure: bool)

  /** The redirect the handler returns, relative to the request's origin. */
  datatype Result =
    | ToError(code: string)
    | ToPage(path: string, cookie: Option<Cookie>)

  /** The URL path and query of a redirect. */
  function Location(r: Result): string
  {
    match r
    case ToError(code) => "/auth/callback/error?error=" + code
    case ToPage(path, _) => path
  }

  /** The cookie set on the way to `/home`. */
  function WelcomeBack(production: bool): Cookie
  {
    Cookie("welcome_back", "true", "/", 30, true, production)
  }

  /** `GET`. `exchange` is the result of `exchangeCodeForSession`, `setSession`
      that of storing the session (only a throw matters: its returned error is
      not looked at), `profile` that of the profile read; `production` is
      whether NODE_ENV is `production`. */
  function Callback(code: Option<string>, exchange: SessionResult, setSession: WriteResult,
                    profile: ProfileResult, production: bool): (r: Result)
    ensures r.ToError? ==> r.code in ["code", "session", "profile", "callback"]
    ensures r.ToPage? ==> Truthy(code) && SignedIn(exchange) && !setSession.Threw? && profile.Ok?
    ensures r.ToPage? ==> (r.path == "/home" <==> RowComplete(profile.value))
    ensures r.ToPage? && r.path != "/home" ==> r.path == "/auth/complete-profile"
  {
    if !Truthy(code) then ToError("code")
    else match exchange
      case Threw(_) => ToError("callback")
      case Failed(_) => ToError("session")
      case Ok(None) => ToError("session")
      case Ok(Some(_)) =>
        if setSession.Threw? then ToError("callback")
        else match profile
          case Threw(_) => ToError("callback")
          case Failed(_) => ToError("profile")
          case Ok(row) =>
            if !RowComplete(row) then ToPage("/auth/complete-profile", None)
            else ToPage("/home", Some(WelcomeBack(production)))
  }

  /** Without a code the handler stops before calling the service: the outcome
      does not depend on what the service would have answered. */
  lemma MissingCode(code: Option<string>, exchange: SessionResult, setSession: WriteResult,
                    profile: ProfileResult, production: bool)
    requires !Truthy(code)
    ensures Callback(code, exchange, setSession, profile, production) == ToError("code")
    ensures Location(Callback(code, exchange, setSession, profile, production)) == "/auth/callback/error?error=code"
  {
  }

  /** An exchange error and a session without a user both give `error=session`. */
  lemma SessionFailures(code: string, exchange: SessionResult, setSession: WriteResult,
                        profile: ProfileResult, production: bool)
    requires code != "" && (exchange.Failed? || exchange == Ok(None))
    ensures Callback(Some(code), exchange, setSession, profile, production) == ToError("session")
  {
  }

  /** Once the session is stored, every profile-read error, a missing row
      included, gives `error=profile`. */
  lemma ProfileFailures(code: string, user: AuthUser, setSession: WriteResult, profile: ProfileResult, production: bool)
    requires code != "" && !setSession.Threw? && profile.Failed?
    ensures Callback(Some(code), Ok(Some(user)), setSession, profile, production) == ToError("profile")
  {
  }

  /** Once the session is stored, a profile row leads to `/home` with the
      welcome cookie exactly when it is complete, and to profile completion
      without a cookie otherwise. The cookie says `welcome_back=true` for the
      whole site, lives 30 seconds, is hidden from scripts, and is secure only
      in production. */
  lemma ProfileRowOutcome(code: string, user: AuthUser, setSession: WriteResult, row: UserRow, production: bool)
    requires code != "" && !setSession.Threw?
    ensures var r := Callback(Some(code), Ok(Some(user)), setSession, Ok(row), production);
            && (RowComplete(row) ==> r.ToPage? && r.path == "/home" && r.cookie.Some?)
            && (!RowComplete(row) ==> r == ToPage("/auth/complete-profile", None))
    ensures var r := Callback(Some(code), Ok(Some(user)), setSession, Ok(row), production);
            r.ToPage? && r.cookie.Some? ==>
              var c := r.cookie.value;
              && c.name == "welcome_back" && c.value == "true" && c.path == "/"
              && c.maxAge == 30 && c.httpOnly && c.secure == production
  {
  }

  /** A thrown error, from the exchange, from storing the session or from the
      profile read, gives `error=callback`. */
  lemma ExceptionsGiveCallback(code: string, exchange: SessionResult, setSession: WriteResult,
                               profile: ProfileResult, production: bool)
    requires code != ""
    requires exchange.Threw? || (SignedIn(exchange) && (setSession.Threw? || profile.Threw?))
    ensures Callback(Some(code), exchange, setSession, profile, production) == ToError("callback")
  {
  }

  /** A cookie is set only on the way to `/home`. */
  lemma CookieOnlyForHome(code: Option<string>, exchange: SessionResult, setSession: WriteResult,
                          profile: ProfileResult, production: bool)
    ensures var r := Callback(code, exchange, setSession, profile, production);
            r.ToPage? && r.cookie.Some? <==> r.ToPage? && r.path == "/home"
  {
  }

  /** Every error the handler emits has its own entry on the callback error page. */
  lemma EveryErrorHasAMessage(code: Option<string>, exchange: SessionResult, setSession: WriteResult,
                              profile: ProfileResult, production: bool)
    ensures var r := Callback(code, exchange, setSession, profile, production);
            r.ToError? ==> CallbackErrorPage.Message(Some(r.code)).Some?
  {
  }
}
