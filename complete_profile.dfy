/** The profile-completion page (app/auth/complete-profile/page.tsx): on mount
    it sends a visitor without a session to sign-in and prefills the form from
    the stored profile; its submit writes the three profile fields. */
module CompleteProfile {
  import opened Common
  import opened Database
  import opened Services

  const NoSessionMessage: string := "No session found"
  const UpdateFallback: string := "Failed to update profile"

  /** `value || ''` */
  function OrEmpty(value: Option<string>): (s: string)
    ensures Truthy(value) ==> s == value.value
    ensures !Truthy(value) ==> s == ""
  {
    if value.Some? then value.value else ""
  }

  class Page {
    var firstname: string
    var lastname: string
    var phone: string
    var isLoading: bool
    /** The pages pushed on the router, oldest first. */
    var pushes: seq<string>
    /** The profile updates sent, with the id they were sent for. */
    var updates: seq<(string, UserUpdate)>

    constructor()
      ensures firstname == "" && lastname == "" && phone == "" && !isLoading
      ensures pushes == [] && updates == []
    {
      firstname, lastname, phone := "", "", "";
      isLoading := false;
      pushes := [];
      updates := [];
    }

    /** The mount effect `checkSession`. `session` is the outcome of
        `getSession` (a returned error counts as no session), `profile` that of
        the profile read. A thrown call rejects the effect and changes nothing. */
    method CheckSession(session: SessionResult, profile: ProfileResult)
      modifies this
      ensures !session.Threw? && !SignedIn(session) ==>
                pushes == old(pushes) + ["/auth/sign-in"]
                && firstname == old(firstname) && lastname == old(lastname) && phone == old(phone)
      ensures SignedIn(session) && profile.Ok? ==>
                firstname == OrEmpty(profile.value.firstname) && lastname == OrEmpty(profile.value.lastname)
                && phone == OrEmpty(profile.value.phone) && pushes == old(pushes)
      ensures (session.Threw? || (SignedIn(session) && !profile.Ok?)) ==>
                firstname == old(firstname) && lastname == old(lastname) && phone == old(phone) && pushes == old(pushes)
      ensures isLoading == old(isLoading) && updates == old(updates)
    {
      if session.Threw? {
        return;
      }
      if !SignedIn(session) {
        pushes := pushes + ["/auth/sign-in"];
        return;
      }
      if profile.Ok? {
        firstname := OrEmpty(profile.value.firstname);
        lastname := OrEmpty(profile.value.lastname);
        phone := OrEmpty(profile.value.phone);
      }
    }

    /** `handleSubmit`. `session` is the outcome of `getSession`, `result` that of
        the update. Returns the message the error toast reports, if any. */
    method HandleSubmit(session: SessionResult, result: WriteResult) returns (reported: Option<string>)
      modifies this
      ensures !isLoading
      ensures firstname == old(firstname) && lastname == old(lastname) && phone == old(phone)
      ensures !SignedIn(session) ==>
                updates == old(updates) && pushes == old(pushes)
                && reported == Some(if session.Threw? then MessageOr(session, UpdateFallback) else NoSessionMessage)
      ensures SignedIn(session) ==>
                updates == old(updates) + [(session.value.value.id, ProfileWrite(firstname, lastname, phone))]
      ensures SignedIn(session) && result.Ok? ==> pushes == old(pushes) + ["/home"] && reported.None?
      ensures SignedIn(session) && !result.Ok? ==> pushes == old(pushes) && reported == Some(MessageOr(result, UpdateFallback))
    {
      isLoading := true;
      match session {
        case Threw(_) =>
          reported := Some(MessageOr(session, UpdateFallback));
        case Ok(Some(u)) =>
          updates := updates + [(u.id, ProfileWrite(firstname, lastname, phone))];
          if result.Ok? {
            pushes := pushes + ["/home"];
            reported := None;
          } else {
            reported := Some(MessageOr(result, UpdateFallback));
          }
        case _ =>
          reported := Some(NoSessionMessage);
      }
      isLoading := false;
    }
  }

  /** Prefilling from a stored row and submitting it unchanged writes the row's
      own values back, a null field becoming "", and completes the row exactly
      when it was complete. */
  lemma PrefillRoundTrip(row: UserRow)
    ensures var r := ApplyUpdate(row, ProfileWrite(OrEmpty(row.firstname), OrEmpty(row.lastname), OrEmpty(row.phone)));
            RowComplete(r) <==> RowComplete(row)
  {
    ProfileWriteCompletes(row, OrEmpty(row.firstname), OrEmpty(row.lastname), OrEmpty(row.phone));
  }
}
