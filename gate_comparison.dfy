/** How the application's gates compare. They share one completeness predicate
    (first name, last name and phone all set) and agree on incomplete
    profiles, but disagree on a missing profile row and on where a complete
    profile lands. */
module GateComparison {
  import opened Common
  import opened Database
  import opened Services
  import Middleware
  import AuthCallback
  import GoogleCallback
  import AuthProvider
  import LoginForm

  /** A profile read that found no row for a signed-in user (after the
      magic-link callback stored the session without a throw): the middleware
      sends a protected request to sign-in, the magic-link callback reports
      `error=profile`, while the Google callback and the auth provider insert a
      first profile and, when the insert succeeds, move to profile completion,
      and the sign-in form shows its profile form. */
  lemma MissingRowDisagreement(pathname: string, code: string, u: AuthUser, e: ServiceError,
                               inserted: UserRow, now: string, production: bool, s: AuthProvider.AuthState,
                               stored: WriteResult)
    requires pathname != "/" && !StartsWith(pathname, "/auth/") && code != "" && !stored.Threw?
    requires e.code == NoRowsCode
    ensures Middleware.Decide(pathname, Ok(Some(u)), Failed(e)) == Middleware.RedirectTo(Middleware.SignIn)
    ensures AuthCallback.Callback(Some(code), Ok(Some(u)), stored, Failed(e), production) == AuthCallback.ToError("profile")
    ensures var g := GoogleCallback.Callback(Some(code), Ok(Some(u)), Failed(e), Ok(()), now);
            g.inserted.Some? && g.redirect == GoogleCallback.ToPage("/auth/complete-profile")
    ensures var r := AuthProvider.Refresh(s, Ok(Some(u)), Failed(e), Ok(inserted), now);
            r.inserted.Some? && r.push == Some(AuthProvider.CompleteProfilePath)
    ensures LoginForm.NeedsProfile(Failed(e))
  {
    Middleware.ProfileGate(pathname, Ok(Some(u)), Failed(e));
  }

  /** A complete profile: the magic-link callback lands on `/home`, the Google
      callback on `/dashboard`, and the middleware lets protected requests
      through. */
  lemma CompleteProfileLanding(pathname: string, code: string, u: AuthUser, row: UserRow,
                               insert: WriteResult, now: string, production: bool, stored: WriteResult)
    requires pathname != "/" && !StartsWith(pathname, "/auth/") && code != "" && !stored.Threw?
    requires RowComplete(row)
    ensures AuthCallback.Location(AuthCallback.Callback(Some(code), Ok(Some(u)), stored, Ok(row), production)) == "/home"
    ensures GoogleCallback.Location(GoogleCallback.Callback(Some(code), Ok(Some(u)), Ok(row), insert, now).redirect) == "/dashboard"
    ensures Middleware.Decide(pathname, Ok(Some(u)), Ok(row)) == Middleware.Pass
  {
    Middleware.ProfileGate(pathname, Ok(Some(u)), Ok(row));
  }

  /** An existing but incomplete profile: every gate sends the user to profile
      completion, and the sign-in form shows its profile form. */
  lemma IncompleteProfileAgreement(pathname: string, code: string, u: AuthUser, row: UserRow, insert: WriteResult,
                                   created: ProfileResult, now: string, production: bool, s: AuthProvider.AuthState,
                                   stored: WriteResult)
    requires pathname != "/" && !StartsWith(pathname, "/auth/") && code != "" && !stored.Threw?
    requires !RowComplete(row)
    ensures Middleware.Decide(pathname, Ok(Some(u)), Ok(row)) == Middleware.RedirectTo(Middleware.CompleteProfile)
    ensures AuthCallback.Location(AuthCallback.Callback(Some(code), Ok(Some(u)), stored, Ok(row), production)) == "/auth/complete-profile"
    ensures GoogleCallback.Location(GoogleCallback.Callback(Some(code), Ok(Some(u)), Ok(row), insert, now).redirect) == "/auth/complete-profile"
    ensures AuthProvider.Refresh(s, Ok(Some(u)), Ok(row), created, now).push == Some("/auth/complete-profile")
    ensures LoginForm.NeedsProfile(Ok(row))
  {
    Middleware.ProfileGate(pathname, Ok(Some(u)), Ok(row));
  }

  /** The middleware's field-by-field test and the callbacks' test agree on
      every row, so "complete" means the same thing at every gate. */
  lemma OneCompletenessPredicate(row: UserRow)
    ensures Middleware.FieldsComplete(row) <==> RowComplete(row)
    ensures RowComplete(row) <==> Truthy(row.firstname) && Truthy(row.lastname) && Truthy(row.phone)
  {
  }
}
