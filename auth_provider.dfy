/** The client-side auth context (providers/auth-provider.tsx): a state record
    `{user, profile, isLoading}` that the provider refreshes from the auth
    service, creates a first profile for, updates, and clears on sign-out. */
module AuthProvider {
  import opened Common
  import opened Database
  import opened Services

  datatype AuthState = AuthState(user: Option<AuthUser>, profile: Option<UserRow>, isLoading: bool)

  const Initial: AuthState := AuthState(None, None, true)
  const SignedOut: AuthState := AuthState(None, None, false)
  const CompleteProfilePath: string := "/auth/complete-profile"

  /** What one `refreshProfile` does: the new state, the page it pushes (if
      any), and the profile it inserts (if it tries to). */
  datatype Refreshed = Refreshed(state: AuthState, push: Option<string>, inserted: Option<UserInsert>)

  /** The profile inserted for a signed-in user without one, named from the
      `name` metadata. */
  function FirstProfile(u: AuthUser, now: string): UserInsert
  {
    NewProfile(u.id, u.email, u.name, now)
  }

  /** `refreshProfile`, from state `s`. `session` is the outcome of `getSession`,
      `fetched` that of the profile read, `created` that of the insert (used only
      when the read found nothing), `now` the timestamp written. A thrown error
      ends in the catch block, which clears the profile but keeps the user. */
  function Refresh(s: AuthState, session: SessionResult, fetched: ProfileResult, created: ProfileResult, now: string): (r: Refreshed)
    ensures !r.state.isLoading
    ensures r.state.profile.Some? ==> SignedIn(session) && r.state.user == Some(session.value.value)
    ensures r.push.Some? ==> r.push.value == CompleteProfilePath && r.state.profile.Some?
    ensures r.inserted.Some? <==> SignedIn(session) && fetched.Failed?
  {
    match session
    case Threw(_) => Refreshed(s.(profile := None, isLoading := false), None, None)
    case Failed(_) => Refreshed(SignedOut, None, None)
    case Ok(None) => Refreshed(SignedOut, None, None)
    case Ok(Some(u)) =>
      var signedIn := s.(user := Some(u));
      match fetched
      case Ok(row) =>
        Refreshed(signedIn.(profile := Some(row), isLoading := false),
                  if RowComplete(row) then None else Some(CompleteProfilePath), None)
      case Threw(_) => Refreshed(signedIn.(profile := None, isLoading := false), None, None)
      case Failed(_) =>
        var ins := FirstProfile(u, now);
        (match created
         case Ok(row) => Refreshed(signedIn.(profile := Some(row), isLoading := false), Some(CompleteProfilePath), Some(ins))
         case _ => Refreshed(signedIn.(profile := None, isLoading := false), None, Some(ins)))
  }

  /** Every refresh ends with loading finished, and the only page it ever
      pushes is profile completion. */
  lemma RefreshSettles(s: AuthState, session: SessionResult, fetched: ProfileResult, created: ProfileResult, now: string)
    ensures var r := Refresh(s, session, fetched, created, now);
            && !r.state.isLoading
            && (r.push.Some? ==> r.push.value == CompleteProfilePath)
            && (r.state.user.Some? <==> SignedIn(session) || (session.Threw? && s.user.Some?))
  {
  }

  /** A session error, or no session, signs the state out without redirecting. */
  lemma RefreshWithoutSession(s: AuthState, session: SessionResult, fetched: ProfileResult, created: ProfileResult, now: string)
    requires session.Failed? || session == Ok(None)
    ensures Refresh(s, session, fetched, created, now) == Refreshed(SignedOut, None, None)
  {
  }

  /** An existing profile is stored; the page moves to profile completion
      exactly when the profile is incomplete, and nothing is inserted. */
  lemma RefreshExistingProfile(s: AuthState, u: AuthUser, row: UserRow, created: ProfileResult, now: string)
    ensures var r := Refresh(s, Ok(Some(u)), Ok(row), created, now);
            && r.state == AuthState(Some(u), Some(row), false)
            && (r.push.Some? <==> !RowComplete(row))
            && r.inserted.None?
  {
  }

  /** Any read error, a missing row included, makes the provider insert a first
      profile: a student from Google named by the first-space split. After a
      successful insert it always moves to profile completion; after a failed
      one the profile is null and it stays. */
  lemma RefreshCreatesProfile(s: AuthState, u: AuthUser, e: ServiceError, created: ProfileResult, now: string)
    ensures var r := Refresh(s, Ok(Some(u)), Failed(e), created, now);
            && r.inserted == Some(FirstProfile(u, now))
            && r.state.user == Some(u) && !r.state.isLoading
            && (created.Ok? ==> r.state.profile == Some(created.value) && r.push == Some(CompleteProfilePath))
            && (!created.Ok? ==> r.state.profile.None? && r.push.None?)
  {
  }

  /** The inserted profile is never complete (it has no phone), which is why a
      new user always goes to profile completion. */
  lemma FirstProfileIsIncomplete(u: AuthUser, now: string)
    ensures FirstProfile(u, now).phone.Absent?
    ensures FirstProfile(u, now).role == Present(Student)
  {
  }

  /** `useAuth`: the context, or a thrown error outside a provider. */
  function UseAuth(context: Option<AuthState>): (r: Call<AuthState>)
    ensures r.Threw? <==> context.None?
    ensures r.Threw? ==> r.message == "useAuth must be used within an AuthProvider"
    ensures r.Ok? ==> r.value == context.value
  {
    match context
    case None => Threw("useAuth must be used within an AuthProvider")
    case Some(state) => Ok(state)
  }

  class Provider {
    var user: Option<AuthUser>
    var profile: Option<UserRow>
    var isLoading: bool
    /** The effect's `mounted` flag. */
    var mounted: bool
    /** The pages pushed on the router, oldest first. */
    var pushes: seq<string>
    /** The profiles inserted, oldest first. */
    var inserts: seq<UserInsert>
    /** The profile updates sent, with the id they were sent for. */
    var updates: seq<(string, UserUpdate)>

    function State(): AuthState
      reads this
    {
      AuthState(user, profile, isLoading)
    }

    /** The provider as first rendered: no user, no profile, loading. */
    constructor()
      ensures State() == Initial && mounted
      ensures pushes == [] && inserts == [] && updates == []
    {
      user := None;
      profile := None;
      isLoading := true;
      mounted := true;
      pushes := [];
      inserts := [];
      updates := [];
    }

    /** Pushes a page on the router. */
    method Push(path: string)
      modifies this
      ensures pushes == old(pushes) + [path]
      ensures State() == old(State()) && mounted == old(mounted)
      ensures inserts == old(inserts) && updates == old(updates)
    {
      pushes := pushes + [path];
    }

    /** `refreshProfile` */
    method RefreshProfile(session: SessionResult, fetched: ProfileResult, created: ProfileResult, now: string)
      modifies this
      ensures var r := Refresh(old(State()), session, fetched, created, now);
              && State() == r.state
              && pushes == old(pushes) + (if r.push.Some? then [r.push.value] else [])
              && inserts == old(inserts) + (if r.inserted.Some? then [r.inserted.value] else [])
      ensures updates == old(updates) && mounted == old(mounted)
    {
      match session {
        case Threw(_) =>
          profile, isLoading := None, false;
        case Failed(_) =>
          profile, user, isLoading := None, None, false;
        case Ok(None) =>
          profile, user, isLoading := None, None, false;
        case Ok(Some(u)) =>
          user := Some(u);
          match fetched {
            case Ok(row) =>
              profile, isLoading := Some(row), false;
              if !RowComplete(row) {
                Push(CompleteProfilePath);
              }
            case Threw(_) =>
              profile, isLoading := None, false;
            case Failed(_) =>
              var ins := FirstProfile(u, now);
              inserts := inserts + [ins];
              match created {
                case Ok(row) =>
                  profile, isLoading := Some(row), false;
                  Push(CompleteProfilePath);
                case _ =>
                  profile, isLoading := None, false;
              }
          }
      }
    }

    /** `updateProfile(data)`: with no user id it stops before any update;
        otherwise it sends the update for the user's id, and on success refreshes
        the profile and then goes to `/dashboard`. An error changes no state. */
    method UpdateProfile(data: UserUpdate, result: WriteResult,
                         session: SessionResult, fetched: ProfileResult, created: ProfileResult, now: string)
      modifies this
      ensures old(user).None? || old(user).value.id == "" ==>
                updates == old(updates) && State() == old(State()) && pushes == old(pushes) && inserts == old(inserts)
      ensures old(user).Some? && old(user).value.id != "" ==> updates == old(updates) + [(old(user).value.id, data)]
      ensures old(user).Some? && old(user).value.id != "" && !result.Ok? ==>
                State() == old(State()) && pushes == old(pushes) && inserts == old(inserts)
      ensures old(user).Some? && old(user).value.id != "" && result.Ok? ==>
                var r := Refresh(old(State()), session, fetched, created, now);
                && State() == r.state
                && pushes == old(pushes) + (if r.push.Some? then [r.push.value] else []) + ["/dashboard"]
                && inserts == old(inserts) + (if r.inserted.Some? then [r.inserted.value] else [])
      ensures mounted == old(mounted)
    {
      if user.None? || user.value.id == "" {
        return;
      }
      updates := updates + [(user.value.id, data)];
      if result.Ok? {
        RefreshProfile(session, fetched, created, now);
        Push("/dashboard");
      }
    }

    /** `signOut`: loading while the call runs; unless the call throws, the state
        is cleared and the page goes to sign-in. A thrown error only ends the
        loading. The call's returned error is not looked at. */
    method SignOut(result: WriteResult)
      modifies this
      ensures !result.Threw? ==> State() == SignedOut && pushes == old(pushes) + ["/auth/sign-in"]
      ensures result.Threw? ==> State() == old(State()).(isLoading := false) && pushes == old(pushes)
      ensures inserts == old(inserts) && updates == old(updates) && mounted == old(mounted)
    {
      isLoading := true;
      if result.Threw? {
        isLoading := false;
      } else {
        user, profile, isLoading := None, None, false;
        Push("/auth/sign-in");
      }
    }

    /** The auth-change subscription: with a session, while mounted, it
        refreshes; otherwise it clears the state. */
    method OnAuthStateChange(hasSession: bool, session: SessionResult, fetched: ProfileResult,
                             created: ProfileResult, now: string)
      modifies this
      ensures !(hasSession && old(mounted)) ==>
                State() == SignedOut && pushes == old(pushes) && inserts == old(inserts)
      ensures hasSession && old(mounted) ==>
                var r := Refresh(old(State()), session, fetched, created, now);
                && State() == r.state
                && pushes == old(pushes) + (if r.push.Some? then [r.push.value] else [])
                && inserts == old(inserts) + (if r.inserted.Some? then [r.inserted.value] else [])
      ensures updates == old(updates) && mounted == old(mounted)
    {
      if hasSession && mounted {
        RefreshProfile(session, fetched, created, now);
      } else {
        user, profile, isLoading := None, None, false;
      }
    }

    /** The effect's cleanup. */
    method Unmount()
      modifies this
      ensures !mounted && State() == old(State()) && pushes == old(pushes)
      ensures inserts == old(inserts) && updates == old(updates)
    {
      mounted := false;
    }
  }
}
