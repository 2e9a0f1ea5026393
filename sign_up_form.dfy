/** The sign-up form (components/auth/sign-up-form.tsx): it asks the auth
    service to e-mail a sign-in link and then shows a "check your email" note
    until the visitor chooses another address. */
module SignUpForm {
  import opened Services

  const ThrownMessage: string := "An error occurred. Please try again."

  class Form {
    var email: string
    var error: string
    var isLoading: bool
    var isSent: bool

    constructor()
      ensures email == "" && error == "" && !isLoading && !isSent
    {
      email, error, isLoading, isSent := "", "", false, false;
    }

    /** The e-mail input. */
    method SetEmail(value: string)
      modifies this
      ensures email == value && error == old(error) && isLoading == old(isLoading) && isSent == old(isSent)
    {
      email := value;
    }

    /** `onSubmit`; `otp` is the outcome of the link request. A returned error
        shows its own message (with no fallback), a thrown one the fixed text;
        success marks the link as sent. Loading ends either way. */
    method OnSubmit(otp: WriteResult)
      modifies this
      ensures !isLoading && email == old(email)
      ensures otp.Ok? ==> isSent && error == ""
      ensures otp.Failed? ==> error == otp.error.message && isSent == old(isSent)
      ensures otp.Threw? ==> error == ThrownMessage && isSent == old(isSent)
    {
      isLoading := true;
      error := "";
      match otp {
        case Failed(e) => error := e.message;
        case Ok(_) => isSent := true;
        case Threw(_) => error := ThrownMessage;
      }
      isLoading := false;
    }

    /** "Use a different email": back to an empty form. */
    method UseDifferentEmail()
      modifies this
      ensures email == "" && !isSent && error == old(error) && isLoading == old(isLoading)
    {
      email := "";
      isSent := false;
    }
  }
}
