/** The password sign-in form (components/auth/login-form.tsx): it signs in,
    reads the user's profile, and either goes to `/home` or switches to a
    profile form whose submit writes the three profile fields. */
module LoginForm {
  import opened Common
  import opened Database
  import opened Services

  /** The inputs that belong to the profile form; every other input name is a
      sign-in field. */
  const ProfileKeys: seq<string> := ["firstname", "lastname", "phone"]

  const SignInFallback: string := "Invalid email or password"
  const UpdateFallback: string := "Failed to update profile"

  /** Whether a profile read's outcome leaves the form asking for the profile:
      no row ("no rows" is tolerated), or a row missing a field. */
  predicate NeedsProfile(profile: ProfileResult)
  {
    NoRows(profile) || (profile.Ok? && !RowComplete(profile.value))
  }

  class Form {
    var formData: map<string, string>
    var profileData: map<string, string>
    var error: string
    var isLoading: bool
    var showProfileForm: bool
    var userId: string
    /** The pages pushed on the router, oldest first. */
    var pushes: seq<string>
    /** The profile updates sent, with the id they were sent for. */
    var updates: seq<(string, UserUpdate)>

    /** The three profile inputs always have a value. */
    predicate Valid()
      reads this
    {
      "firstname" in profileData && "lastname" in profileData && "phone" in profileData
    }

    constructor()
      ensures Valid()
      ensures formData == map["email" := "", "password" := ""]
      ensures profileData == map["firstname" := "", "lastname" := "", "phone" := ""]
      ensures error == "" && !isLoading && !showProfileForm && userId == ""
      ensures pushes == [] && updates == []
    {
      formData := map["email" := "", "password" := ""];
      profileData := map["firstname" := "", "lastname" := "", "phone" := ""];
      error := "";
      isLoading := false;
      showProfileForm := false;
      userId := "";
      pushes := [];
      updates := [];
    }

    /** `handleInputChange`: the three profile names go to the profile data, any
        other name to the sign-in data; only that one key changes. */
    method HandleInputChange(name: string, value: string)
      requires Valid()
      modifies this
      ensures Valid()
      ensures name in ProfileKeys ==> profileData == old(profileData)[name := value] && formData == old(formData)
      ensures name !in ProfileKeys ==> formData == old(formData)[name := value] && profileData == old(profileData)
      ensures error == old(error) && isLoading == old(isLoading) && showProfileForm == old(showProfileForm)
      ensures userId == old(userId) && pushes == old(pushes) && updates == old(updates)
    {
      if name in ProfileKeys {
        profileData := profileData[name := value];
      } else {
        formData := formData[name := value];
      }
    }

    /** `handleSubmit`. `signIn` is the outcome of the password sign-in and
        `profile` that of the profile read for the signed-in user. */
    method HandleSubmit(signIn: SessionResult, profile: ProfileResult)
      requires Valid()
      modifies this
      ensures Valid() && !isLoading
      ensures formData == old(formData) && profileData == old(profileData) && updates == old(updates)
      // Sign-in failed: the service's message, or the fallback.
      ensures !signIn.Ok? ==>
                error == MessageOr(signIn, SignInFallback) && pushes == old(pushes)
                && userId == old(userId) && showProfileForm == old(showProfileForm)
      // Signed in without a user: nothing but the cleared error.
      ensures signIn == Ok(None) ==>
                error == "" && pushes == old(pushes) && userId == old(userId) && showProfileForm == old(showProfileForm)
      ensures SignedIn(signIn) ==> userId == signIn.value.value.id
      // A profile read error other than "no rows" is reported.
      ensures SignedIn(signIn) && !profile.Ok? && !NoRows(profile) ==>
                error == MessageOr(profile, SignInFallback) && pushes == old(pushes) && showProfileForm == old(showProfileForm)
      // No profile, or an incomplete one: the profile form, no navigation.
      ensures SignedIn(signIn) && NeedsProfile(profile) ==>
                error == "" && showProfileForm && pushes == old(pushes)
      // A complete profile: on to `/home`.
      ensures SignedIn(signIn) && profile.Ok? && RowComplete(profile.value) ==>
                error == "" && pushes == old(pushes) + ["/home"] && showProfileForm == old(showProfileForm)
    {
      error := "";
      isLoading := true;
      match signIn {
        case Ok(None) =>
        case Ok(Some(u)) =>
          userId := u.id;
          if !profile.Ok? && !NoRows(profile) {
            error := MessageOr(profile, SignInFallback);
          } else if NeedsProfile(profile) {
            showProfileForm := true;
            isLoading := false;
          } else {
            pushes := pushes + ["/home"];
          }
        case _ =>
          error := MessageOr(signIn, SignInFallback);
      }
      isLoading := false;
    }

    /** `handleProfileSubmit`: writes the three profile fields for the stored
        user id; `result` is the update's outcome. */
    method HandleProfileSubmit(result: WriteResult)
      requires Valid()
      modifies this
      ensures Valid() && !isLoading
      ensures updates == old(updates) +
                [(userId, ProfileWrite(profileData["firstname"], profileData["lastname"], profileData["phone"]))]
      ensures result.Ok? ==> pushes == old(pushes) + ["/home"] && error == old(error)
      ensures !result.Ok? ==> pushes == old(pushes) && error == MessageOr(result, UpdateFallback)
      ensures formData == old(formData) && profileData == old(profileData)
      ensures userId == old(userId) && showProfileForm == old(showProfileForm)
    {
      isLoading := true;
      updates := updates + [(userId, ProfileWrite(profileData["firstname"], profileData["lastname"], profileData["phone"]))];
      if result.Ok? {
        pushes := pushes + ["/home"];
      } else {
        error := MessageOr(result, UpdateFallback);
      }
      isLoading := false;
    }
  }

  /** Whatever the service answers, a failed sign-in always leaves a message to
      show: its own, or the fallback. */
  lemma SignInFailureHasMessage(signIn: SessionResult)
    requires !signIn.Ok?
    ensures MessageOr(signIn, SignInFallback) != ""
    ensures signIn.Failed? && signIn.error.message == "" ==> MessageOr(signIn, SignInFallback) == SignInFallback
  {
  }

  /** The sign-in outcomes are exclusive: a signed-in user either gets the
      profile form, goes home, or sees a read error. */
  lemma ProfileOutcomesPartition(profile: ProfileResult)
    ensures NeedsProfile(profile) || (profile.Ok? && RowComplete(profile.value)) || (!profile.Ok? && !NoRows(profile))
    ensures !(NeedsProfile(profile) && profile.Ok? && RowComplete(profile.value))
  {
  }
}
