/** Authentication helpers (lib/auth.ts): sign-in against a fixed table of
    accounts, profile reads that never fail, role checks, the role-based landing
    page, and the signed-in user kept in the browser's local storage. */
module AuthLib {
  import opened Common
  import opened Database
  import opened Services

  /** The user record handed to the pages: no password. */
  datatype User = User(id: string, email: string, name: string, role: string)

  /** An entry of the fixed account table. */
  datatype Account = Account(id: string, email: string, password: string, name: string, role: string)

  const Accounts: seq<Account> := [
    Account("1", "admin@example.com", "password", "Admin User", "admin"),
    Account("2", "instructor@example.com", "password", "Instructor User", "instructor"),
    Account("3", "user@example.com", "password", "Regular User", "practitioner")
  ]

  predicate Matches(a: Account, email: string, password: string)
  {
    a.email == email && a.password == password
  }

  /** `find`: the first account whose email and password both match. */
  function FindAccount(accounts: seq<Account>, email: string, password: string): (r: Option<Account>)
    ensures r.None? <==> forall i :: 0 <= i < |accounts| ==> !Matches(accounts[i], email, password)
    ensures r.Some? ==> exists i :: 0 <= i < |accounts| && accounts[i] == r.value
                                 && Matches(r.value, email, password)
                                 && forall j :: 0 <= j < i ==> !Matches(accounts[j], email, password)
  {
    if accounts == [] then None
    else if Matches(accounts[0], email, password) then Some(accounts[0])
    else
      var r := FindAccount(accounts[1..], email, password);
      assert r.Some? ==> exists i :: 1 <= i < |accounts| && accounts[i] == r.value
                                   && Matches(r.value, email, password)
                                   && forall j :: 0 <= j < i ==> !Matches(accounts[j], email, password) by {
        if r.Some? {
          var i :| 0 <= i < |accounts[1..]| && accounts[1..][i] == r.value
                   && Matches(r.value, email, password)
                   && forall j :: 0 <= j < i ==> !Matches(accounts[1..][j], email, password);
          assert forall j :: 0 <= j < i + 1 ==> !Matches(accounts[j], email, password) by {
            forall j | 0 <= j < i + 1 ensures !Matches(accounts[j], email, password) {
              if j > 0 {
                assert accounts[j] == accounts[1..][j - 1];
              }
            }
          }
          assert accounts[i + 1] == r.value;
        }
      }
      assert r.None? ==> forall i :: 0 <= i < |accounts| ==> !Matches(accounts[i], email, password) by {
        if r.None? {
          forall i | 0 <= i < |accounts| ensures !Matches(accounts[i], email, password) {
            if i > 0 {
              assert accounts[i] == accounts[1..][i - 1];
            }
          }
        }
      }
      r
  }

  /** The account without its password. */
  function WithoutPassword(a: Account): User
  {
    User(a.id, a.email, a.name, a.role)
  }

  /** `authenticate`: a user exactly when some account matches both email and
      password, and then that account's record without the password. */
  function Authenticate(email: string, password: string): (r: Option<User>)
    ensures r.Some? <==> exists a :: a in Accounts && Matches(a, email, password)
    ensures r.Some? ==> exists a :: a in Accounts && Matches(a, email, password) && r.value == WithoutPassword(a)
  {
    var found := FindAccount(Accounts, email, password);
    assert (exists a :: a in Accounts && Matches(a, email, password)) ==> found.Some? by {
      if exists a :: a in Accounts && Matches(a, email, password) {
        var a :| a in Accounts && Matches(a, email, password);
        var i :| 0 <= i < |Accounts| && Accounts[i] == a;
      }
    }
    match found
    case None => None
    case Some(a) => Some(WithoutPassword(a))
  }

  /** The three demonstration accounts sign in with their email and "password". */
  lemma DemoAccountsSignIn()
    ensures Authenticate("admin@example.com", "password") == Some(User("1", "admin@example.com", "Admin User", "admin"))
    ensures Authenticate("user@example.com", "password").Some?
    ensures Authenticate("admin@example.com", "secret").None?
  {
    assert Matches(Accounts[0], "admin@example.com", "password");
    assert Matches(Accounts[2], "user@example.com", "password");
  }

  /** `getUserProfile`: the profile row, or null on a session error, no session, a
      read error or a thrown error. It never throws. */
  function GetUserProfile(session: SessionResult, profile: ProfileResult): (r: Option<UserRow>)
    ensures r.Some? <==> SignedIn(session) && profile.Ok?
    ensures r.Some? ==> r == Some(profile.value)
  {
    match session
    case Ok(Some(_)) =>
      (match profile
       case Ok(row) => Some(row)
       case _ => None)
    case _ => None
  }

  /** `checkUserRole`: false without a profile, otherwise whether the profile's role is allowed. */
  function CheckUserRole(allowed: seq<string>, session: SessionResult, profile: ProfileResult): (ok: bool)
    ensures ok <==> GetUserProfile(session, profile).Some? && GetUserProfile(session, profile).value.role in allowed
  {
    match GetUserProfile(session, profile)
    case None => false
    case Some(p) => p.role in allowed
  }

  function IsAdmin(session: SessionResult, profile: ProfileResult): (ok: bool)
    ensures ok <==> SignedIn(session) && profile.Ok? && profile.value.role == "admin"
  {
    CheckUserRole(["admin"], session, profile)
  }

  function IsInstructor(session: SessionResult, profile: ProfileResult): (ok: bool)
    ensures ok <==> SignedIn(session) && profile.Ok? && profile.value.role in {"admin", "instructor"}
  {
    CheckUserRole(["admin", "instructor"], session, profile)
  }

  /** An admin passes the instructor check too. */
  lemma AdminIsInstructor(session: SessionResult, profile: ProfileResult)
    ensures IsAdmin(session, profile) ==> IsInstructor(session, profile)
  {
  }

  /** `getRoleBasedRedirect` */
  function RoleBasedRedirect(role: string): (path: string)
    ensures role == "admin" ==> path == "/admin/dashboard"
    ensures role == "instructor" ==> path == "/instructor/dashboard"
    ensures role != "admin" && role != "instructor" ==> path == "/dashboard"
  {
    if role == "admin" then "/admin/dashboard"
    else if role == "instructor" then "/instructor/dashboard"
    else "/dashboard"
  }

  /** The browser's local storage, as far as these helpers use it: the signed-in
      user under the key "user". */
  class UserStorage {
    var items: map<string, User>

    const Key: string := "user"

    constructor(initial: map<string, User>)
      ensures items == initial
    {
      items := initial;
    }

    /** The user `getUser` finds. */
    function Stored(): Option<User>
      reads this
    {
      if Key in items then Some(items[Key]) else None
    }

    /** `getUser`: the stored user, or null when there is none. */
    method GetUser() returns (u: Option<User>)
      ensures u == Stored()
      ensures u.Some? <==> "user" in items
    {
      if Key in items {
        u := Some(items[Key]);
      } else {
        u := None;
      }
    }

    /** `setUser`: afterwards `getUser` returns `user`; other keys are untouched. */
    method SetUser(user: User)
      modifies this
      ensures Stored() == Some(user)
      ensures items == old(items)[Key := user]
    {
      items := items[Key := user];
    }

    /** `removeUser`: afterwards `getUser` returns null; other keys are untouched. */
    method RemoveUser()
      modifies this
      ensures Stored() == None
      ensures items == old(items) - {Key}
    {
      items := items - {Key};
    }

    /** `signOut`: a successful sign-out clears the stored user; an error (thrown
        or returned) is passed on and the store is left as it was. */
    method SignOut(result: WriteResult) returns (ok: bool)
      modifies this
      ensures ok <==> result.Ok?
      ensures ok ==> Stored() == None && items == old(items) - {Key}
      ensures !ok ==> items == old(items)
    {
      if result.Ok? {
        RemoveUser();
        ok := true;
      } else {
        ok := false;
      }
    }
  }
}
