/** The home page's loading gate (app/home/page.tsx): it loads the profile once,
    sends an incomplete or missing profile to profile completion and a failed
    load to sign-in, and ignores a load that finishes after unmount. */
module HomePage {
  import opened Common
  import opened Database
  import opened Services
  import AuthLib

  /** What the awaited `getUserProfile()` gave: it threw, or it returned a
      profile or null. */
  datatype Load = LoadThrew | Loaded(profile: Option<UserRow>)

  /** The load as `getUserProfile` produces it from the service's answers; it
      never throws, so the sign-in branch is never taken. */
  function ServiceLoad(session: SessionResult, read: ProfileResult): (l: Load)
    ensures l.Loaded?
    ensures l.profile.Some? <==> SignedIn(session) && read.Ok?
  {
    Loaded(AuthLib.GetUserProfile(session, read))
  }

  /** What the page renders. */
  datatype View = Spinner | Nothing | Dashboard(profile: UserRow)

  class Page {
    var profile: Option<UserRow>
    var loading: bool
    /** The effect's `mounted` flag. */
    var mounted: bool
    /** The pages the router was replaced with, oldest first. */
    var replaced: seq<string>

    constructor()
      ensures profile.None? && loading && mounted && replaced == []
    {
      profile := None;
      loading := true;
      mounted := true;
      replaced := [];
    }

    /** `loadProfile`, once the awaited load has finished. */
    method LoadProfile(load: Load)
      modifies this
      ensures mounted == old(mounted)
      ensures !old(mounted) ==> profile == old(profile) && loading == old(loading) && replaced == old(replaced)
      ensures old(mounted) && load.LoadThrew? ==>
                !loading && profile == old(profile) && replaced == old(replaced) + ["/auth/sign-in"]
      ensures old(mounted) && load.Loaded? && (load.profile.None? || !RowComplete(load.profile.value)) ==>
                !loading && profile == old(profile) && replaced == old(replaced) + ["/auth/complete-profile"]
      ensures old(mounted) && load.Loaded? && load.profile.Some? && RowComplete(load.profile.value) ==>
                !loading && profile == load.profile && replaced == old(replaced)
    {
      if !mounted {
        return;
      }
      match load {
        case LoadThrew =>
          loading := false;
          replaced := replaced + ["/auth/sign-in"];
        case Loaded(p) =>
          if p.None? || !RowComplete(p.value) {
            loading := false;
            replaced := replaced + ["/auth/complete-profile"];
            return;
          }
          profile := p;
          loading := false;
      }
    }

    /** The effect's cleanup. */
    method Unmount()
      modifies this
      ensures !mounted && profile == old(profile) && loading == old(loading) && replaced == old(replaced)
    {
      mounted := false;
    }

    /** A spinner while loading; then nothing without a profile, the dashboard
        with one. */
    function Render(): (v: View)
      reads this
      ensures loading <==> v == Spinner
      ensures !loading && profile.None? <==> v == Nothing
      ensures v.Dashboard? ==> profile == Some(v.profile)
    {
      if loading then Spinner
      else if profile.None? then Nothing
      else Dashboard(profile.value)
    }
  }
}
