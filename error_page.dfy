/** The page shown after a failed Google callback (app/auth/error/page.tsx): the
    `error` query parameter selects a title and message, falling back to
    `unexpected_error` for anything that is not a key of the table. */
module ErrorPage {
  import opened Common

  datatype ErrorInfo = ErrorInfo(title: string, message: string)

  const Unexpected: string := "unexpected_error"

  const Messages: map<string, ErrorInfo> :=
    map["missing_code" := ErrorInfo("Authentication Code Missing",
          "The authentication code was not provided. Please try signing in again."),
        "invalid_session" := ErrorInfo("Invalid Session",
          "We could not create a valid session. Please try signing in again."),
        "missing_user" := ErrorInfo("User Not Found",
          "We could not find your user information. Please try signing in again."),
        "profile_error" := ErrorInfo("Profile Error",
          "There was an error accessing your profile. Please try again later."),
        "profile_creation_failed" := ErrorInfo("Profile Creation Failed",
          "We could not create your profile. Please try signing in again."),
        Unexpected := ErrorInfo("Unexpected Error",
          "An unexpected error occurred. Please try again later.")]

  /** `safeErrorCode`: the parameter when it is a key, `unexpected_error` otherwise. */
  function SafeCode(error: Option<string>): (c: string)
    ensures c in Messages
    ensures Truthy(error) && error.value in Messages ==> c == error.value
    ensures !(Truthy(error) && error.value in Messages) ==> c == Unexpected
  {
    var code := if Truthy(error) then error.value else Unexpected;
    if code in Messages then code else Unexpected
  }

  /** `errorInfo`: the lookup is total. */
  function Lookup(error: Option<string>): (info: ErrorInfo)
    ensures error.None? ==> info == Messages[Unexpected]
    ensures error.Some? && error.value in Messages ==> info == Messages[error.value]
    ensures error.Some? && error.value !in Messages ==> info == Messages[Unexpected]
  {
    Messages[SafeCode(error)]
  }

  /** "Try Again" and "Back to Home". */
  const TryAgainTarget: string := "/auth/sign-in"
  const BackHomeTarget: string := "/"
}
