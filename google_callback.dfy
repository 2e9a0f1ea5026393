/** The Google OAuth callback (app/api/auth/callback/google/route.ts): like the
    magic-link callback it trades the `code` for a session and reads the
    profile, but a missing row is created, errors go to `/auth/error`, and a
    complete profile lands on `/dashboard`. */
module GoogleCallback {
  import opened Common
  import opened Database
  import opened Services
  import ErrorPage

  /** The redirect the handler returns (relative to the request's origin), and
      the profile it inserted, if it tried to insert one. */
  datatype Result = Result(redirect: Redirect, inserted: Option<UserInsert>)

  datatype Redirect = ToError(code: string) | ToPage(path: string)

  function Location(r: Redirect): string
  {
    match r
    case ToError(code) => "/auth/error?error=" + code
    case ToPage(path) => path
  }

  /** The profile the handler inserts for a new Google user, named from the
      `full_name` metadata. */
  function InitialProfile(user: AuthUser, now: string): UserInsert
  {
    NewProfile(user.id, user.email, user.fullName, now)
  }

  /** `GET`. `exchange`, `profile` and `insert` are the outcomes of the three
      service calls; `now` is the timestamp written to the new row. */
  function Callback(code: Option<string>, exchange: SessionResult, profile: ProfileResult,
                    insert: WriteResult, now: string): (r: Result)
    ensures r.redirect.ToError? ==>
              r.redirect.code in ["missing_code", "unexpected_error", "invalid_session", "missing_user",
                                  "user_error", "profile_creation_failed"]
    ensures r.redirect.ToPage? ==> r.redirect.path == "/dashboard" || r.redirect.path == "/auth/complete-profile"
    ensures r.redirect == ToPage("/dashboard") ==>
              Truthy(code) && SignedIn(exchange) && profile.Ok? && RowComplete(profile.value)
    ensures r.inserted.Some? ==>
              Truthy(code) && SignedIn(exchange) && NoRows(profile) &&
              r.inserted.value == InitialProfile(exchange.value.value, now)
  {
    if !Truthy(code) then Result(ToError("missing_code"), None)
    else match exchange
      case Threw(_) => Result(ToError("unexpected_error"), None)
      case Failed(_) => Result(ToError("invalid_session"), None)
      case Ok(None) => Result(ToError("missing_user"), None)
      case Ok(Some(user)) =>
        match profile
        case Threw(_) => Result(ToError("unexpected_error"), None)
        case Failed(e) =>
          if e.code != NoRowsCode then Result(ToError("user_error"), None)
          else
            var ins := InitialProfile(user, now);
            (match insert
             case Threw(_) => Result(ToError("unexpected_error"), Some(ins))
             case Failed(_) => Result(ToError("profile_creation_failed"), Some(ins))
             case Ok(_) => Result(ToPage("/auth/complete-profile"), Some(ins)))
        case Ok(row) =>
          if !RowComplete(row) then Result(ToPage("/auth/complete-profile"), None)
          else Result(ToPage("/dashboard"), None)
  }

  /** A missing code stops the handler before any service call. */
  lemma MissingCode(code: Option<string>, exchange: SessionResult, profile: ProfileResult, insert: WriteResult, now: string)
    requires !Truthy(code)
    ensures Callback(code, exchange, profile, insert, now) == Result(ToError("missing_code"), None)
  {
  }

  /** An exchange error and a session without a user are told apart. */
  lemma SessionFailures(code: string, exchange: SessionResult, profile: ProfileResult, insert: WriteResult, now: string)
    requires code != ""
    ensures exchange.Failed? ==> Callback(Some(code), exchange, profile, insert, now).redirect == ToError("invalid_session")
    ensures exchange == Ok(None) ==> Callback(Some(code), exchange, profile, insert, now).redirect == ToError("missing_user")
  {
  }

  /** A read error other than "no rows" gives `user_error` and inserts nothing. */
  lemma ReadErrors(code: string, user: AuthUser, e: ServiceError, insert: WriteResult, now: string)
    requires code != "" && e.code != NoRowsCode
    ensures Callback(Some(code), Ok(Some(user)), Failed(e), insert, now) == Result(ToError("user_error"), None)
  {
  }

  /** "No rows" is an absent profile: the initial profile is inserted, and the
      handler ends on profile completion if the insert succeeds and on
      `profile_creation_failed` if it returns an error. */
  lemma AbsentProfileIsCreated(code: string, user: AuthUser, e: ServiceError, insert: WriteResult, now: string)
    requires code != "" && e.code == NoRowsCode
    ensures var r := Callback(Some(code), Ok(Some(user)), Failed(e), insert, now);
            && r.inserted == Some(InitialProfile(user, now))
            && (insert.Ok? ==> r.redirect == ToPage("/auth/complete-profile"))
            && (insert.Failed? ==> r.redirect == ToError("profile_creation_failed"))
  {
  }

  /** The inserted profile is a Google student, not anonymous, named by splitting
      `full_name` at its first space, and has no phone, so it is never complete:
      that is why the handler sends every new user to profile completion. */
  lemma InitialProfileShape(user: AuthUser, now: string)
    ensures var ins := InitialProfile(user, now);
            && ins.role == Present(Student) && ins.authProvider == Present(Some("google"))
            && ins.isAnonymous == Present(false) && ins.phone.Absent?
            && ins.id == Present(user.id)
            && (user.fullName.Some? && ' ' in user.fullName.value ==>
                  user.fullName.value == ins.firstname.value.value + " " + ins.lastname.value.value)
            && (user.fullName.None? || ' ' !in user.fullName.value ==> ins.lastname == Present(Some("")))
  {
  }

  /** An existing row goes to profile completion when incomplete and to
      `/dashboard` (not `/home`) when complete; nothing is inserted. */
  lemma ExistingProfileOutcome(code: string, user: AuthUser, row: UserRow, insert: WriteResult, now: string)
    requires code != ""
    ensures var r := Callback(Some(code), Ok(Some(user)), Ok(row), insert, now);
            && r.inserted.None?
            && r.redirect == ToPage(if RowComplete(row) then "/dashboard" else "/auth/complete-profile")
  {
  }

  /** A profile is inserted only when the read reported "no rows". */
  lemma InsertOnlyWhenAbsent(code: Option<string>, exchange: SessionResult, profile: ProfileResult, insert: WriteResult, now: string)
    ensures Callback(code, exchange, profile, insert, now).inserted.Some? <==>
              Truthy(code) && SignedIn(exchange) && NoRows(profile)
  {
  }

  /** A thrown error, from any of the three calls, gives `unexpected_error`; a
      throw from the insert comes after the insert was sent. */
  lemma ExceptionsGiveUnexpectedError(code: string, user: AuthUser, exchange: SessionResult, profile: ProfileResult,
                                      insert: WriteResult, now: string)
    requires code != ""
    requires exchange.Threw? || (exchange == Ok(Some(user)) && (profile.Threw? || (NoRows(profile) && insert.Threw?)))
    ensures Callback(Some(code), exchange, profile, insert, now).redirect == ToError("unexpected_error")
    ensures exchange == Ok(Some(user)) && NoRows(profile) ==>
              Callback(Some(code), exchange, profile, insert, now).inserted == Some(InitialProfile(user, now))
  {
  }

  /** Every error code but `user_error` has its own entry on `/auth/error`;
      `user_error` is not a key there, so it shows the unexpected-error text. */
  lemma ErrorCodesOnErrorPage(code: Option<string>, exchange: SessionResult, profile: ProfileResult, insert: WriteResult, now: string)
    ensures var r := Callback(code, exchange, profile, insert, now).redirect;
            r.ToError? && r.code != "user_error" ==> r.code in ErrorPage.Messages
    ensures ErrorPage.Lookup(Some("user_error")) == ErrorPage.Messages[ErrorPage.Unexpected]
  {
  }
}
