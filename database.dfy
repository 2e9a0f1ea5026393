/** The `users` table: its role type and its Row, Insert and Update shapes
    (lib/types/database.ts), with the "profile complete" predicate that every
    gate of the application relies on. */
module Database {
  import opened Common

  /** `UserRole`: exactly one of three roles. */
  datatype UserRole = Admin | Instructor | Student

  /** The string the database stores for a role. */
  function RoleName(r: UserRole): string
  {
    match r
    case Admin => "admin"
    case Instructor => "instructor"
    case Student => "student"
  }

  /** Reads a stored string back as a role; anything but the three names is not one. */
  function ParseRole(s: string): (r: Option<UserRole>)
    ensures r.Some? ==> RoleName(r.value) == s
    ensures r.None? ==> s != "admin" && s != "instructor" && s != "student"
  {
    if s == "admin" then Some(Admin)
    else if s == "instructor" then Some(Instructor)
    else if s == "student" then Some(Student)
    else None
  }

  /** Naming a role and reading the name back gives the role: the three names are distinct. */
  lemma RoleNameRoundTrip(r: UserRole)
    ensures ParseRole(RoleName(r)) == Some(r)
  {
  }

  /** A row of `users`. `id`, `role`, `createdAt` and `isAnonymous` are always
      there; the other columns may be null. `role` is the stored string: the
      declared type promises one of the three role names (`HasDeclaredRole`),
      and a null role is represented by "". */
  datatype UserRow = UserRow(
    id: string,
    firstname: Option<string>,
    lastname: Option<string>,
    email: Option<string>,
    phone: Option<string>,
    role: string,
    createdAt: string,
    lastSignInAt: Option<string>,
    isAnonymous: bool,
    authProvider: Option<string>)

  predicate HasDeclaredRole(row: UserRow)
  {
    ParseRole(row.role).Some?
  }

  /** An Insert: every column may be left out. */
  datatype UserInsert = UserInsert(
    id: Opt<string>,
    firstname: Opt<Option<string>>,
    lastname: Opt<Option<string>>,
    email: Opt<Option<string>>,
    phone: Opt<Option<string>>,
    role: Opt<UserRole>,
    createdAt: Opt<string>,
    lastSignInAt: Opt<Option<string>>,
    isAnonymous: Opt<bool>,
    authProvider: Opt<Option<string>>)

  /** An Update: every column may be left out, and `id` and `created_at` are not columns of it. */
  datatype UserUpdate = UserUpdate(
    firstname: Opt<Option<string>>,
    lastname: Opt<Option<string>>,
    email: Opt<Option<string>>,
    phone: Opt<Option<string>>,
    role: Opt<UserRole>,
    lastSignInAt: Opt<Option<string>>,
    isAnonymous: Opt<bool>,
    authProvider: Opt<Option<string>>)

  const EmptyUpdate: UserUpdate :=
    UserUpdate(Absent, Absent, Absent, Absent, Absent, Absent, Absent, Absent)

  function Patch<T>(current: T, given: Opt<T>): T
  {
    match given
    case Absent => current
    case Present(v) => v
  }

  /** The row an update leaves behind. */
  function ApplyUpdate(row: UserRow, u: UserUpdate): (r: UserRow)
    ensures r.id == row.id && r.createdAt == row.createdAt
    ensures u == EmptyUpdate ==> r == row
    ensures u.role.Present? ==> HasDeclaredRole(r)
    ensures u.firstname.Absent? && u.lastname.Absent? && u.phone.Absent? ==>
              (r.firstname, r.lastname, r.phone) == (row.firstname, row.lastname, row.phone)
    ensures u.firstname.Present? ==> r.firstname == u.firstname.value
    ensures u.lastname.Present? ==> r.lastname == u.lastname.value
    ensures u.email.Present? ==> r.email == u.email.value
    ensures u.phone.Present? ==> r.phone == u.phone.value
    ensures u.role.Present? ==> r.role == RoleName(u.role.value) && ParseRole(r.role) == Some(u.role.value)
    ensures u.role.Absent? ==> r.role == row.role
    ensures u.lastSignInAt.Present? ==> r.lastSignInAt == u.lastSignInAt.value
    ensures u.isAnonymous.Present? ==> r.isAnonymous == u.isAnonymous.value
    ensures u.authProvider.Present? ==> r.authProvider == u.authProvider.value
  {
    row.(
      firstname := Patch(row.firstname, u.firstname),
      lastname := Patch(row.lastname, u.lastname),
      email := Patch(row.email, u.email),
      phone := Patch(row.phone, u.phone),
      role := match u.role { case Absent => row.role case Present(r) => RoleName(r) },
      lastSignInAt := Patch(row.lastSignInAt, u.lastSignInAt),
      isAnonymous := Patch(row.isAnonymous, u.isAnonymous),
      authProvider := Patch(row.authProvider, u.authProvider))
  }

  /** A profile is complete when first name, last name and phone are all truthy. */
  predicate ProfileComplete(firstname: Option<string>, lastname: Option<string>, phone: Option<string>)
  {
    Truthy(firstname) && Truthy(lastname) && Truthy(phone)
  }

  /** The completeness test every gate applies to a profile row: a null column
      and an empty string both make the row incomplete. */
  predicate RowComplete(row: UserRow)
    ensures RowComplete(row) <==>
              && row.firstname.Some? && row.firstname.value != ""
              && row.lastname.Some? && row.lastname.value != ""
              && row.phone.Some? && row.phone.value != ""
  {
    ProfileComplete(row.firstname, row.lastname, row.phone)
  }

  /** The update the profile forms send: the three profile fields and nothing else. */
  function ProfileWrite(firstname: string, lastname: string, phone: string): (u: UserUpdate)
    ensures u.email.Absent? && u.role.Absent? && u.lastSignInAt.Absent?
    ensures u.isAnonymous.Absent? && u.authProvider.Absent?
  {
    EmptyUpdate.(firstname := Present(Some(firstname)), lastname := Present(Some(lastname)),
                 phone := Present(Some(phone)))
  }

  /** Writing the three profile fields completes a row exactly when all three are
      non-empty, and leaves every other column as it was. */
  lemma ProfileWriteCompletes(row: UserRow, firstname: string, lastname: string, phone: string)
    ensures var r := ApplyUpdate(row, ProfileWrite(firstname, lastname, phone));
            && (RowComplete(r) <==> firstname != "" && lastname != "" && phone != "")
            && r == row.(firstname := Some(firstname), lastname := Some(lastname), phone := Some(phone))
  {
  }

  /** The profile inserted for a user seen for the first time: the display name is
      split at its first space, the role is `student`, the provider `google`, and
      no phone is given. */
  function NewProfile(id: string, email: Option<string>, displayName: Option<string>, now: string): (ins: UserInsert)
    ensures ins.role == Present(Student) && ins.isAnonymous == Present(false)
    ensures ins.authProvider == Present(Some("google")) && ins.phone.Absent?
    ensures ins.id == Present(id)
    ensures ins.firstname.Present? && ins.firstname.value.Some? && ' ' !in ins.firstname.value.value
    ensures ins.lastname.Present? && ins.lastname.value.Some?
    ensures displayName.None? ==> ins.firstname == ins.lastname == Present(Some(""))
    ensures displayName.Some? && ' ' in displayName.value ==>
              displayName.value == ins.firstname.value.value + " " + ins.lastname.value.value
    ensures displayName.Some? && ' ' !in displayName.value ==>
              ins.firstname == Present(displayName) && ins.lastname == Present(Some(""))
  {
    var (first, rest) := match displayName { case None => ("", "") case Some(n) => SplitAtFirstSpace(n) };
    UserInsert(
      id := Present(id),
      firstname := Present(Some(first)),
      lastname := Present(Some(rest)),
      email := match email { case None => Absent case Some(e) => Present(Some(e)) },
      phone := Absent,
      role := Present(Student),
      createdAt := Present(now),
      lastSignInAt := Present(Some(now)),
      isAnonymous := Present(false),
      authProvider := Present(Some("google")))
  }
}
