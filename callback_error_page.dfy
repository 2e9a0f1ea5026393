/** The page shown after a failed magic-link callback (app/auth/callback/error.tsx):
    the `error` query parameter selects a message from a fixed table. */
module CallbackErrorPage {
  import opened Common

  /** The table's own keys, `default` included. */
  const Messages: map<string, string> :=
    map["code" := "Invalid or expired magic link. Please request a new one.",
        "session" := "Unable to create your session. Please try signing in again.",
        "profile" := "Unable to retrieve your profile. Please contact support.",
        "callback" := "Something went wrong. Please try signing in again.",
        "default" := "An unexpected error occurred. Please try again."]

  /** The message shown for the `error` parameter (None when it is missing).
      A missing or empty parameter shows `default`; any other parameter is
      looked up as it is, and a parameter that is not a key shows nothing. */
  function Message(error: Option<string>): (m: Option<string>)
    ensures !Truthy(error) ==> m == Some(Messages["default"])
    ensures Truthy(error) ==> (m.Some? <==> error.value in Messages)
    ensures Truthy(error) && error.value in Messages ==> m == Some(Messages[error.value])
  {
    if Truthy(error) then
      (if error.value in Messages then Some(Messages[error.value]) else None)
    else Some(Messages["default"])
  }

  /** Each of the four error codes has its own message, distinct from `default`. */
  lemma KnownCodesHaveOwnMessage(code: string)
    requires code in {"code", "session", "profile", "callback"}
    ensures Message(Some(code)).Some?
    ensures Message(Some(code)) != Message(None)
  {
  }

  /** There is no fallback: an unknown code shows no message at all. */
  lemma UnknownCodeShowsNothing(code: string)
    requires code != "" && code !in Messages
    ensures Message(Some(code)).None?
  {
  }
}
