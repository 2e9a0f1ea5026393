/** What the hosted auth/database service, the key-value store and the browser
    hand back to the application. None of them is modelled; each call's outcome
    is an input of the operation that makes the call. */
module Services {
  import opened Common
  import opened Database

  /** An error object returned by the service: a code and a message. */
  datatype ServiceError = ServiceError(code: string, message: string)

  /** The code the database returns from `.single()` when no row matches. */
  const NoRowsCode: string := "PGRST116"

  /** The outcome of one awaited call: it threw (with the thrown error's
      message, "" when it has none), it returned an error, or it returned data. */
  datatype Call<+T> = Threw(message: string) | Failed(error: ServiceError) | Ok(value: T)

  /** The signed-in user as the auth service describes it, with the two
      metadata entries the application reads (`full_name` and `name`). */
  datatype AuthUser = AuthUser(id: string, email: Option<string>, fullName: Option<string>, name: Option<string>)

  /** `getSession` / `exchangeCodeForSession`: `Ok(None)` is "no session" or a
      session without a user. */
  type SessionResult = Call<Option<AuthUser>>

  /** `.from('users').select(..).eq('id', ..).single()` */
  type ProfileResult = Call<UserRow>

  /** An insert, update or sign-out call whose data is not used. */
  type WriteResult = Call<()>

  predicate SignedIn(s: SessionResult)
  {
    s.Ok? && s.value.Some?
  }

  /** The profile query found no row. */
  predicate NoRows(p: ProfileResult)
  {
    p.Failed? && p.error.code == NoRowsCode
  }

  /** `error?.message || fallback` for whatever a call threw or returned as an error. */
  function MessageOr<T>(c: Call<T>, fallback: string): (m: string)
    requires !c.Ok?
    ensures m != "" || fallback == ""
  {
    var given := if c.Threw? then c.message else c.error.message;
    if given != "" then given else fallback
  }
}
