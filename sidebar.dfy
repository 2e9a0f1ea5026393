/** The dashboard sidebar (components/dashboard/sidebar.tsx): a fixed list of
    navigation items, some restricted to roles, filtered by the signed-in
    profile's role; the item whose link is the current path is highlighted. */
module Sidebar {
  import opened Common
  import opened Database

  /** The pages the sidebar links to, one per item. */
  datatype Page =
    | Overview | Classes | Techniques | Progress | Achievements | Students
    | Curriculum | Grading | InstructorSettings | AdminPanel | ProfileSettings

  function Href(p: Page): string
  {
    match p
    case Overview => "/dashboard"
    case Classes => "/dashboard/classes"
    case Techniques => "/dashboard/techniques"
    case Progress => "/dashboard/progress"
    case Achievements => "/dashboard/achievements"
    case Students => "/dashboard/students"
    case Curriculum => "/dashboard/curriculum"
    case Grading => "/dashboard/grading"
    case InstructorSettings => "/dashboard/instructor-settings"
    case AdminPanel => "/dashboard/admin"
    case ProfileSettings => "/dashboard/settings"
  }

  function Title(p: Page): string
  {
    match p
    case Overview => "Dashboard"
    case Classes => "Classes"
    case Techniques => "Techniques Library"
    case Progress => "My Progress"
    case Achievements => "Achievements"
    case Students => "Student Management"
    case Curriculum => "Curriculum Planning"
    case Grading => "Student Grading"
    case InstructorSettings => "Instructor Settings"
    case AdminPanel => "Admin Panel"
    case ProfileSettings => "Profile Settings"
  }

  /** An item; `roles` is None for an item everybody sees. */
  datatype NavItem = NavItem(page: Page, roles: Option<seq<UserRole>>)

  const Items: seq<NavItem> := [
    NavItem(Overview, None),
    NavItem(Classes, None),
    NavItem(Techniques, None),
    NavItem(Progress, Some([Student])),
    NavItem(Achievements, Some([Student])),
    NavItem(Students, Some([Admin, Instructor])),
    NavItem(Curriculum, Some([Instructor])),
    NavItem(Grading, Some([Instructor])),
    NavItem(InstructorSettings, Some([Instructor])),
    NavItem(AdminPanel, Some([Admin])),
    NavItem(ProfileSettings, None)
  ]

  /** The signed-in profile's role, when there is a profile and its stored role
      is one of the three names (a null role, stored as "", is none). */
  function ProfileRole(profile: Option<UserRow>): (r: Option<UserRole>)
    ensures r.Some? <==> profile.Some? && HasDeclaredRole(profile.value)
    ensures r.Some? ==> profile.value.role == RoleName(r.value)
  {
    if profile.None? then None else ParseRole(profile.value.role)
  }

  /** An unrestricted item is always shown; a restricted one only to a profile
      whose role is set and listed. */
  predicate Visible(item: NavItem, profile: Option<UserRow>)
  {
    item.roles.None? || (ProfileRole(profile).Some? && ProfileRole(profile).value in item.roles.value)
  }

  /** The filter's test for a given profile. */
  function Shown(profile: Option<UserRow>): NavItem -> bool
  {
    item => Visible(item, profile)
  }

  /** `filteredItems`: the items the profile may see, in the list's order. */
  function FilteredItems(profile: Option<UserRow>): (r: seq<NavItem>)
    ensures |r| <= |Items|
  {
    Filter(Items, Shown(profile))
  }

  /** The shown items are the visible ones, in the list's order. */
  lemma FilteredItemsAreVisible(profile: Option<UserRow>)
    ensures Sublist(FilteredItems(profile), Items)
    ensures forall item :: item in FilteredItems(profile) <==> item in Items && Visible(item, profile)
  {
    FilterKeeps(Items, Shown(profile));
  }

  /** Without a role (no profile, or a profile whose role is null or unknown) only the
      unrestricted items are shown, and all four of them are. */
  lemma NoRoleShowsUnrestricted(profile: Option<UserRow>)
    requires ProfileRole(profile).None?
    ensures forall item :: item in FilteredItems(profile) <==> item in Items && item.roles.None?
    ensures Items[0] in FilteredItems(profile) && Items[1] in FilteredItems(profile)
    ensures Items[2] in FilteredItems(profile) && Items[10] in FilteredItems(profile)
  {
    FilteredItemsAreVisible(profile);
  }

  /** Item `k` is shown exactly when it is visible to the profile. */
  lemma ShownIffVisible(profile: Option<UserRow>, k: nat)
    requires k < |Items|
    ensures Items[k] in FilteredItems(profile) <==> Visible(Items[k], profile)
  {
    assert Items[k] in Items;
    FilteredItemsAreVisible(profile);
  }

  /** The student-only items are shown exactly to students. */
  lemma StudentItems(profile: Option<UserRow>)
    ensures Items[3].page == Progress && Items[4].page == Achievements
    ensures Items[3] in FilteredItems(profile) <==> ProfileRole(profile) == Some(Student)
    ensures Items[4] in FilteredItems(profile) <==> ProfileRole(profile) == Some(Student)
  {
    ShownIffVisible(profile, 3);
    ShownIffVisible(profile, 4);
  }

  /** Student Management is shown to admins and instructors only. */
  lemma StaffItems(profile: Option<UserRow>)
    ensures Items[5].page == Students
    ensures Items[5] in FilteredItems(profile) <==>
              ProfileRole(profile) == Some(Admin) || ProfileRole(profile) == Some(Instructor)
  {
    ShownIffVisible(profile, 5);
  }

  /** The three instructor items are shown to instructors only; admins do not
      see them. */
  lemma InstructorItems(profile: Option<UserRow>)
    ensures Items[6].page == Curriculum && Items[7].page == Grading && Items[8].page == InstructorSettings
    ensures Items[6] in FilteredItems(profile) <==> ProfileRole(profile) == Some(Instructor)
    ensures Items[7] in FilteredItems(profile) <==> ProfileRole(profile) == Some(Instructor)
    ensures Items[8] in FilteredItems(profile) <==> ProfileRole(profile) == Some(Instructor)
  {
    ShownIffVisible(profile, 6);
    ShownIffVisible(profile, 7);
    ShownIffVisible(profile, 8);
  }

  /** The Admin Panel is shown to admins only. */
  lemma AdminItems(profile: Option<UserRow>)
    ensures Items[9].page == AdminPanel
    ensures Items[9] in FilteredItems(profile) <==> ProfileRole(profile) == Some(Admin)
  {
    ShownIffVisible(profile, 9);
  }

  /** An item is highlighted when the path equals its link exactly. */
  predicate IsActive(pathname: string, item: NavItem)
  {
    pathname == Href(item.page)
  }

  /** Different pages have different links. */
  lemma HrefsDistinct(p: Page, q: Page)
    ensures Href(p) == Href(q) <==> p == q
  {
  }

  /** The items link to different pages, so a path highlights at most one of them. */
  lemma AtMostOneActive(pathname: string)
    ensures forall i, j ::
              (0 <= i < |Items| && 0 <= j < |Items| && IsActive(pathname, Items[i]) && IsActive(pathname, Items[j]))
              ==> i == j
  {
    forall i, j | 0 <= i < |Items| && 0 <= j < |Items| && IsActive(pathname, Items[i]) && IsActive(pathname, Items[j])
      ensures i == j
    {
      HrefsDistinct(Items[i].page, Items[j].page);
    }
  }
}
