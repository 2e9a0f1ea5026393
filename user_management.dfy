/** The admin user table (components/admin/user-management.tsx): it loads every
    profile row, gives a row without a role the student role, changes one
    user's role by id, and filters the table by a case-insensitive search. */
module UserManagement {
  import opened Common
  import opened Database
  import opened Services

  /** A row as the table keeps it: a falsy (null) role becomes `student`. */
  function WithDefaultRole(row: UserRow): (r: UserRow)
    ensures row.role == "" ==> r.role == RoleName(Student)
    ensures r.role != ""
    ensures r == row.(role := r.role)
    ensures row.role != "" ==> r == row
  {
    if row.role == "" then row.(role := RoleName(Student)) else row
  }

  /** The loaded rows, each given its default role; `data || []` for no data. */
  function DefaultRoles(rows: seq<UserRow>): (r: seq<UserRow>)
    ensures |r| == |rows|
    ensures forall i :: 0 <= i < |rows| ==> r[i] == WithDefaultRole(rows[i])
  {
    seq(|rows|, i requires 0 <= i < |rows| => WithDefaultRole(rows[i]))
  }

  /** The `map` of `updateUserRole`: the row with id `userId` gets `newRole`. */
  function SetRole(rows: seq<UserRow>, userId: string, newRole: UserRole): (r: seq<UserRow>)
    ensures |r| == |rows|
    ensures forall i :: 0 <= i < |rows| ==> r[i].id == rows[i].id
    ensures forall i :: 0 <= i < |rows| && rows[i].id == userId ==> r[i] == rows[i].(role := RoleName(newRole))
    ensures forall i :: 0 <= i < |rows| && rows[i].id != userId ==> r[i] == rows[i]
  {
    seq(|rows|, i requires 0 <= i < |rows| =>
      if rows[i].id == userId then rows[i].(role := RoleName(newRole)) else rows[i])
  }

  /** Only the role of the matching row changes: every other column of every row
      is kept, and the matching rows now carry a declared role. */
  lemma SetRoleChangesOnlyRole(rows: seq<UserRow>, userId: string, newRole: UserRole)
    ensures var r := SetRole(rows, userId, newRole);
            forall i :: 0 <= i < |rows| ==> r[i].(role := rows[i].role) == rows[i]
    ensures var r := SetRole(rows, userId, newRole);
            forall i :: 0 <= i < |rows| && rows[i].id == userId ==> HasDeclaredRole(r[i]) && ParseRole(r[i].role) == Some(newRole)
  {
    var r := SetRole(rows, userId, newRole);
    forall i | 0 <= i < |rows| && rows[i].id == userId
      ensures HasDeclaredRole(r[i]) && ParseRole(r[i].role) == Some(newRole)
    {
      RoleNameRoundTrip(newRole);
    }
  }

  /** Setting the same role twice is setting it once, and an id no row has
      changes nothing. */
  lemma SetRoleIdempotent(rows: seq<UserRow>, userId: string, newRole: UserRole)
    ensures SetRole(SetRole(rows, userId, newRole), userId, newRole) == SetRole(rows, userId, newRole)
    ensures (forall i :: 0 <= i < |rows| ==> rows[i].id != userId) ==> SetRole(rows, userId, newRole) == rows
  {
  }

  /** The search test: the email, first name or last name (when present), or the
      role, contains the term, ignoring case. */
  function MatchesSearch(term: string): UserRow -> bool
  {
    (user: UserRow) =>
      (user.email.Some? && IncludesIgnoringCase(user.email.value, term)) ||
      (user.firstname.Some? && IncludesIgnoringCase(user.firstname.value, term)) ||
      (user.lastname.Some? && IncludesIgnoringCase(user.lastname.value, term)) ||
      IncludesIgnoringCase(user.role, term)
  }

  /** `filteredUsers` */
  function SearchUsers(users: seq<UserRow>, term: string): (r: seq<UserRow>)
    ensures |r| <= |users|
  {
    Filter(users, MatchesSearch(term))
  }

  /** The search keeps exactly the matching users, every copy of each, in their order. */
  lemma SearchKeepsMatches(users: seq<UserRow>, term: string)
    ensures Sublist(SearchUsers(users, term), users)
    ensures forall u :: u in SearchUsers(users, term) <==> u in users && MatchesSearch(term)(u)
    ensures forall u :: multiset(SearchUsers(users, term))[u] ==
                          if MatchesSearch(term)(u) then multiset(users)[u] else 0
  {
    FilterKeeps(users, MatchesSearch(term));
  }

  /** An empty term keeps every user: the role is always there to match it. */
  lemma EmptySearchKeepsAll(users: seq<UserRow>)
    ensures SearchUsers(users, "") == users
  {
    FilterAllPass(users, MatchesSearch(""));
  }

  /** A user whose email contains the term exactly is always found. */
  lemma EmailMatchIsFound(users: seq<UserRow>, term: string, u: UserRow)
    requires u in users && u.email.Some? && Includes(u.email.value, term)
    ensures u in SearchUsers(users, term)
  {
    ExactMatchIsFound(u.email.value, term);
    SearchKeepsMatches(users, term);
  }

  class Table {
    var users: seq<UserRow>
    var loading: bool
    var searchTerm: string

    constructor()
      ensures users == [] && loading && searchTerm == ""
    {
      users := [];
      loading := true;
      searchTerm := "";
    }

    /** `loadUsers`: `result` is the outcome of the ordered select; its order is
        kept. On an error the table keeps its rows; loading ends either way. */
    method LoadUsers(result: Call<Option<seq<UserRow>>>)
      modifies this
      ensures !loading && searchTerm == old(searchTerm)
      ensures result.Ok? ==> users == DefaultRoles(if result.value.Some? then result.value.value else [])
      ensures !result.Ok? ==> users == old(users)
      ensures result.Ok? ==> forall i :: 0 <= i < |users| ==> users[i].role != ""
    {
      match result {
        case Ok(data) =>
          var rows := if data.Some? then data.value else [];
          users := DefaultRoles(rows);
        case _ =>
      }
      loading := false;
    }

    /** `updateUserRole`: `result` is the outcome of the update. On success the
        table's matching row gets the new role; on an error nothing changes. */
    method UpdateUserRole(userId: string, newRole: UserRole, result: WriteResult)
      modifies this
      ensures result.Ok? ==> users == SetRole(old(users), userId, newRole)
      ensures !result.Ok? ==> users == old(users)
      ensures loading == old(loading) && searchTerm == old(searchTerm)
    {
      if result.Ok? {
        users := SetRole(users, userId, newRole);
      }
    }

    method SetSearchTerm(term: string)
      modifies this
      ensures searchTerm == term && users == old(users) && loading == old(loading)
    {
      searchTerm := term;
    }

    /** The rows the table shows. */
    function FilteredUsers(): seq<UserRow>
      reads this
    {
      SearchUsers(users, searchTerm)
    }
  }
}
