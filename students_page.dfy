/** The student-management page (app/dashboard/students/page.tsx): a role guard
    on the locally stored user, then a fixed student list filtered by a
    case-insensitive name search. */
module StudentsPage {
  import opened Common
  import AuthLib

  datatype Student = Student(id: nat, name: string, belt: string, stripes: nat,
                             attendance: string, lastClass: string, progress: string)

  const Students: seq<Student> := [
    Student(1, "John Smith", "Blue", 2, "85%", "2024-02-20", "Good"),
    Student(2, "Sarah Johnson", "Purple", 3, "92%", "2024-02-21", "Excellent")
  ]

  /** The page's outcome: redirected to the dashboard with nothing rendered, or
      the list shown for the current search. */
  datatype Outcome = PushDashboard | Show(students: seq<Student>)

  /** The guard shared by the role-restricted dashboard pages: a stored user whose
      role is in `allowed`. */
  predicate MayView(user: Option<AuthLib.User>, allowed: seq<string>)
  {
    user.Some? && user.value.role in allowed
  }

  /** The search test: the name contains the term, ignoring case. */
  function NameMatches(search: string): Student -> bool
  {
    (student: Student) => IncludesIgnoringCase(student.name, search)
  }

  /** `filteredStudents` */
  function FilteredStudents(search: string): (r: seq<Student>)
    ensures |r| <= |Students|
  {
    Filter(Students, NameMatches(search))
  }

  /** The page for the stored `user` and the search box's `search`. */
  function Page(user: Option<AuthLib.User>, search: string): (o: Outcome)
    ensures o.PushDashboard? <==> !MayView(user, ["admin", "instructor"])
    ensures o.Show? ==> o.students == FilteredStudents(search)
  {
    if !MayView(user, ["admin", "instructor"]) then PushDashboard
    else Show(FilteredStudents(search))
  }

  /** Admins and instructors see the list; the demo account with role
      `practitioner`, and a visitor with no stored user, are sent away. */
  lemma GuardedRoles(user: AuthLib.User, search: string)
    ensures user.role == "admin" || user.role == "instructor" ==> Page(Some(user), search).Show?
    ensures user.role == "practitioner" ==> Page(Some(user), search) == PushDashboard
    ensures Page(None, search) == PushDashboard
  {
  }

  /** The shown students are exactly those whose name matches, in list order. */
  lemma FilteredStudentsMatch(search: string)
    ensures Sublist(FilteredStudents(search), Students)
    ensures forall s :: s in FilteredStudents(search) <==> s in Students && IncludesIgnoringCase(s.name, search)
  {
    FilterKeeps(Students, NameMatches(search));
  }

  /** An empty search shows every student. */
  lemma EmptySearchShowsAll()
    ensures FilteredStudents("") == Students
  {
    FilterAllPass(Students, NameMatches(""));
  }

  /** Typing the term in upper or lower case makes no difference. */
  lemma SearchIgnoresCase(search: string)
    ensures FilteredStudents(ToLower(search)) == FilteredStudents(search)
  {
    forall s | s in Students
      ensures NameMatches(ToLower(search))(s) == NameMatches(search)(s)
    {
      SearchIgnoresCaseOfTerm(s.name, search);
    }
    FilterAgreeing(Students, NameMatches(ToLower(search)), NameMatches(search));
  }
}
