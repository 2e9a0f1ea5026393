/** The request gate run before every page (middleware.ts): it lets a request
    through, with three security headers, or redirects it, keeping the port. */
module Middleware {
  import opened Common
  import opened Database
  import opened Services

  /** Paths open to visitors without a session (matched by prefix). */
  const PublicRoutes: seq<string> := ["/auth/sign-in", "/auth/sign-up", "/auth/reset-password"]

  /** The columns that must all be truthy for a profile to be complete. */
  const ProfileFields: seq<string> := ["firstname", "lastname", "phone"]

  const SecurityHeaders: map<string, string> :=
    map["X-Frame-Options" := "DENY",
        "X-Content-Type-Options" := "nosniff",
        "Referrer-Policy" := "origin-when-cross-origin"]

  const SignIn: string := "/auth/sign-in"
  const CompleteProfile: string := "/auth/complete-profile"
  const Dashboard: string := "/dashboard"

  datatype Request = Request(origin: string, port: string, pathname: string)

  /** What the gate decides, before it is turned into a response. */
  datatype Decision = Pass | RedirectTo(path: string) | SignOutAndRedirect(path: string)

  datatype Response = Next(headers: map<string, string>) | Redirect(origin: string, port: string, path: string)

  /** The response, and whether the session was signed out on the way. */
  datatype Outcome = Outcome(response: Response, signedOut: bool)

  /** Every public route lies under `/auth/` and is not a callback path. */
  lemma PublicPrefixes(pathname: string)
    ensures forall route :: route in PublicRoutes && StartsWith(pathname, route) ==>
              StartsWith(pathname, "/auth/") && !StartsWith(pathname, "/auth/callback")
  {
    forall route | route in PublicRoutes && StartsWith(pathname, route)
      ensures StartsWith(pathname, "/auth/") && !StartsWith(pathname, "/auth/callback")
    {
      StartsWithPrefix(pathname, route, "/auth/");
      PrefixesDisagree(pathname, route, "/auth/callback", 6);
    }
  }

  /** `PUBLIC_ROUTES.some((route) => pathname.startsWith(route))`: a public path
      is an `/auth/` page, and never the root or a callback. */
  predicate IsPublicRoute(pathname: string)
    ensures IsPublicRoute(pathname) ==>
              pathname != "/" && StartsWith(pathname, "/auth/") && !StartsWith(pathname, "/auth/callback")
  {
    PublicPrefixes(pathname);
    exists route :: route in PublicRoutes && StartsWith(pathname, route)
  }

  /** One column of the profile by name, as `profile[field]`. */
  function Field(row: UserRow, name: string): Option<string>
  {
    if name == "firstname" then row.firstname
    else if name == "lastname" then row.lastname
    else if name == "phone" then row.phone
    else None
  }

  /** `PROFILE_FIELDS.every((field) => Boolean(profile[field]))`: the
      middleware's every-field test is the application's completeness predicate. */
  predicate FieldsComplete(row: UserRow)
    ensures FieldsComplete(row) <==> RowComplete(row)
  {
    assert ProfileFields[0] == "firstname" && ProfileFields[1] == "lastname" && ProfileFields[2] == "phone";
    assert Field(row, ProfileFields[0]) == row.firstname && Field(row, ProfileFields[1]) == row.lastname;
    assert Field(row, ProfileFields[2]) == row.phone;
    forall name :: name in ProfileFields ==> Truthy(Field(row, name))
  }

  /** The callback paths and the profile-completion page both lie under `/auth/`. */
  lemma AuthSubpaths(pathname: string)
    ensures StartsWith(pathname, "/auth/callback") ==> StartsWith(pathname, "/auth/")
    ensures StartsWith(pathname, CompleteProfile) ==> StartsWith(pathname, "/auth/")
  {
    if StartsWith(pathname, "/auth/callback") {
      StartsWithPrefix(pathname, "/auth/callback", "/auth/");
    }
    if StartsWith(pathname, CompleteProfile) {
      StartsWithPrefix(pathname, CompleteProfile, "/auth/");
    }
  }

  /** The route decision chain, early return by early return. The session
      result is consulted only past the first test, the profile result only
      for a signed-in request outside `/auth/`. */
  function Decide(pathname: string, session: SessionResult, profile: ProfileResult): (d: Decision)
    ensures d.SignOutAndRedirect? ==> d.path == SignIn && (session.Threw? || profile.Threw?)
    ensures d.RedirectTo? ==> d.path == SignIn || d.path == Dashboard || d.path == CompleteProfile
    ensures d == Pass && !SignedIn(session) ==>
              pathname == "/" || StartsWith(pathname, "/auth/callback") || IsPublicRoute(pathname)
    ensures d == Pass && SignedIn(session) && pathname != "/" && !StartsWith(pathname, "/auth/") ==>
              profile.Ok? && RowComplete(profile.value)
  {
    AuthSubpaths(pathname);
    if pathname == "/" || StartsWith(pathname, "/auth/callback") then Pass
    else if session.Threw? then SignOutAndRedirect(SignIn)
    else if IsPublicRoute(pathname) then
      (if SignedIn(session) then RedirectTo(Dashboard) else Pass)
    else if !SignedIn(session) then RedirectTo(SignIn)
    else if !StartsWith(pathname, "/auth/") then
      match profile
      case Threw(_) => SignOutAndRedirect(SignIn)
      case Failed(_) => RedirectTo(SignIn)
      case Ok(row) =>
        if !FieldsComplete(row) && !StartsWith(pathname, CompleteProfile) then RedirectTo(CompleteProfile)
        else Pass
    else Pass
  }

  /** `createRedirectResponse`: the target path on the request's origin and port. */
  function RedirectResponse(path: string, request: Request): (r: Response)
    ensures r.Redirect? && r.path == path
    ensures r.origin == request.origin && r.port == request.port
  {
    Redirect(request.origin, request.port, path)
  }

  /** Turns a decision into a response: passing gets the security headers,
      a redirect goes to the decided path, and only a sign-out decision signs out. */
  function Respond(request: Request, d: Decision): (o: Outcome)
    ensures o.response.Next? <==> d == Pass
    ensures o.response.Next? ==> o.response.headers == SecurityHeaders
    ensures o.response.Redirect? ==> o.response.path == d.path
    ensures o.response.Redirect? ==> o.response.origin == request.origin && o.response.port == request.port
    ensures o.signedOut <==> d.SignOutAndRedirect?
  {
    match d
    case Pass => Outcome(Next(SecurityHeaders), false)
    case RedirectTo(path) => Outcome(RedirectResponse(path, request), false)
    case SignOutAndRedirect(path) => Outcome(RedirectResponse(path, request), true)
  }

  /** `middleware(request)` */
  function Handle(request: Request, session: SessionResult, profile: ProfileResult): (o: Outcome)
    ensures o.signedOut ==> o.response.Redirect? && o.response.path == SignIn && (session.Threw? || profile.Threw?)
    ensures o.response.Redirect? ==>
              o.response.path == SignIn || o.response.path == Dashboard || o.response.path == CompleteProfile
    ensures o.response.Next? && !SignedIn(session) ==>
              var p := request.pathname; p == "/" || StartsWith(p, "/auth/callback") || IsPublicRoute(p)
    ensures o.response.Next? && SignedIn(session) && request.pathname != "/" && !StartsWith(request.pathname, "/auth/") ==>
              profile.Ok? && RowComplete(profile.value)
  {
    Respond(request, Decide(request.pathname, session, profile))
  }

  // ---------------------------------------------------------------------------
  // Properties of the gate

  /** A path outside `/auth/` is neither public nor a callback, and it cannot
      start with `/auth/complete-profile` either. */
  lemma OutsideAuthIsProtected(pathname: string)
    requires !StartsWith(pathname, "/auth/")
    ensures !IsPublicRoute(pathname) && !StartsWith(pathname, "/auth/callback")
    ensures !StartsWith(pathname, CompleteProfile)
  {
    AuthSubpaths(pathname);
  }

  /** The root and every path starting with `/auth/callback` pass whatever the
      session and the profile are. */
  lemma RootAndCallbacksPass(pathname: string, session: SessionResult, profile: ProfileResult)
    requires pathname == "/" || StartsWith(pathname, "/auth/callback")
    ensures Decide(pathname, session, profile) == Pass
  {
  }

  /** A public route (matched by prefix only) sends a signed-in visitor to the
      dashboard and lets anyone else through; the profile is not read. */
  lemma PublicRouteDecision(pathname: string, session: SessionResult, profile: ProfileResult)
    requires IsPublicRoute(pathname) && !session.Threw?
    ensures Decide(pathname, session, profile) == if SignedIn(session) then RedirectTo(Dashboard) else Pass
  {
  }

  /** The match is by prefix: a path that merely extends a public route is public. */
  lemma PublicMatchIsByPrefix(suffix: string)
    ensures IsPublicRoute("/auth/sign-in" + suffix)
  {
    assert ("/auth/sign-in" + suffix)[..|"/auth/sign-in"|] == "/auth/sign-in";
    assert PublicRoutes[0] in PublicRoutes && StartsWith("/auth/sign-in" + suffix, PublicRoutes[0]);
  }

  /** Without a session, every path that is neither the root, a callback nor public
      goes to sign-in. A session error counts as no session. */
  lemma ProtectedWithoutSession(pathname: string, session: SessionResult, profile: ProfileResult)
    requires pathname != "/" && !StartsWith(pathname, "/auth/callback") && !IsPublicRoute(pathname)
    requires session.Failed? || session == Ok(None)
    ensures Decide(pathname, session, profile) == RedirectTo(SignIn)
  {
  }

  /** Signed in, outside `/auth/`: any profile-fetch error (a missing row included)
      goes to sign-in, an incomplete profile to profile completion, a complete one passes. */
  lemma ProfileGate(pathname: string, session: SessionResult, profile: ProfileResult)
    requires SignedIn(session) && pathname != "/" && !StartsWith(pathname, "/auth/")
    ensures profile.Failed? ==> Decide(pathname, session, profile) == RedirectTo(SignIn)
    ensures profile.Ok? && !RowComplete(profile.value) ==>
              Decide(pathname, session, profile) == RedirectTo(CompleteProfile)
    ensures profile.Ok? && RowComplete(profile.value) ==> Decide(pathname, session, profile) == Pass
  {
    OutsideAuthIsProtected(pathname);
  }

  /** Signed in, on an `/auth/` page that is neither public nor a callback: the
      request passes and the profile is never looked at. */
  lemma AuthPagesSkipProfileCheck(pathname: string, session: SessionResult, profile: ProfileResult)
    requires SignedIn(session) && StartsWith(pathname, "/auth/")
    requires !IsPublicRoute(pathname) && !StartsWith(pathname, "/auth/callback")
    ensures Decide(pathname, session, profile) == Pass
  {
  }

  /** The `/auth/complete-profile` exclusion never changes the decision: where it
      is tested the path is outside `/auth/` and so never starts with it. */
  lemma CompleteProfileExclusionIsRedundant(pathname: string, session: SessionResult, row: UserRow)
    requires SignedIn(session) && pathname != "/" && !StartsWith(pathname, "/auth/")
    ensures Decide(pathname, session, Ok(row)) == if FieldsComplete(row) then Pass else RedirectTo(CompleteProfile)
  {
    OutsideAuthIsProtected(pathname);
  }

  /** A thrown error, from the session or the profile read, signs out and goes to sign-in. */
  lemma ExceptionsSignOut(pathname: string, session: SessionResult, profile: ProfileResult)
    requires pathname != "/" && !StartsWith(pathname, "/auth/callback")
    requires session.Threw? || (SignedIn(session) && !StartsWith(pathname, "/auth/") && profile.Threw?)
    ensures Decide(pathname, session, profile) == SignOutAndRedirect(SignIn)
  {
    if !session.Threw? {
      OutsideAuthIsProtected(pathname);
    }
  }

  /** Passing responses carry the three security headers and sign nothing out;
      redirects keep the request's origin and port and carry no headers. */
  lemma ResponseShape(request: Request, session: SessionResult, profile: ProfileResult)
    ensures var o := Handle(request, session, profile);
            var d := Decide(request.pathname, session, profile);
            && (o.response.Next? <==> d == Pass)
            && (o.response.Next? ==> o.response.headers == SecurityHeaders)
            && (o.response.Redirect? ==> o.response.origin == request.origin && o.response.port == request.port)
            && (o.signedOut <==> d.SignOutAndRedirect?)
  {
  }
}
