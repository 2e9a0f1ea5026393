/** The role-based navigation panel (components/layout/role-based-nav.tsx): it
    loads the signed-in profile into component state, shows nothing until a
    profile is there, and then shows the link list of the profile's role, the
    student list standing in for any role it does not know. */
module RoleBasedNav {
  import opened Common
  import opened Database
  import opened Services
  import AuthLib

  datatype Icon = BookOpen | Users | GraduationCap | Settings | Calendar | Person | Shield

  datatype NavLink = NavLink(href: string, title: string, icon: Icon)

  const AdminLinks: seq<NavLink> := [
    NavLink("/dashboard", "Dashboard", BookOpen),
    NavLink("/users", "Manage Users", Users),
    NavLink("/instructors", "Instructors", GraduationCap),
    NavLink("/settings", "Settings", Settings)
  ]

  const InstructorLinks: seq<NavLink> := [
    NavLink("/dashboard", "Dashboard", BookOpen),
    NavLink("/my-classes", "My Classes", Calendar),
    NavLink("/students", "My Students", Users),
    NavLink("/profile", "Profile", Person)
  ]

  const StudentLinks: seq<NavLink> := [
    NavLink("/dashboard", "Dashboard", BookOpen),
    NavLink("/classes", "Classes", Calendar),
    NavLink("/profile", "Profile", Person)
  ]

  /** `roleBasedLinks[role] || roleBasedLinks.student` */
  function LinksFor(role: string): (links: seq<NavLink>)
    ensures ParseRole(role).None? ==> links == StudentLinks
  {
    match ParseRole(role)
    case Some(Admin) => AdminLinks
    case Some(Instructor) => InstructorLinks
    case Some(Student) => StudentLinks
    case None => StudentLinks
  }

  /** `roleIcons[role] || User` */
  function IconFor(role: string): (icon: Icon)
    ensures icon == Shield <==> role == "admin"
    ensures icon == GraduationCap <==> role == "instructor"
    ensures icon == Person <==> role != "admin" && role != "instructor"
  {
    match ParseRole(role)
    case Some(Admin) => Shield
    case Some(Instructor) => GraduationCap
    case _ => Person
  }

  /** `roleColors[role]`: no colour for a role outside the table. */
  function ColourFor(role: string): (c: Option<string>)
    ensures c.Some? <==> ParseRole(role).Some?
  {
    match ParseRole(role)
    case Some(Admin) => Some("bg-red-500/10 text-red-500")
    case Some(Instructor) => Some("bg-blue-500/10 text-blue-500")
    case Some(Student) => Some("bg-green-500/10 text-green-500")
    case None => None
  }

  /** What the panel shows for a loaded profile. */
  datatype Panel = Panel(role: string, icon: Icon, colour: Option<string>, links: seq<NavLink>,
                         firstname: Option<string>, lastname: Option<string>, email: Option<string>)

  /** The link the path highlights: its href equals the path exactly. */
  predicate IsActive(pathname: string, link: NavLink)
  {
    pathname == link.href
  }

  class Nav {
    /** The profile the effect loaded, null until then. */
    var profile: Option<UserRow>

    constructor()
      ensures profile.None?
    {
      profile := None;
    }

    /** The load effect: the profile becomes whatever `getUserProfile` yields,
        so a failed read leaves the panel empty. */
    method LoadProfile(session: SessionResult, read: ProfileResult)
      modifies this
      ensures profile == AuthLib.GetUserProfile(session, read)
      ensures profile.Some? <==> SignedIn(session) && read.Ok?
    {
      profile := AuthLib.GetUserProfile(session, read);
    }

    /** The rendered panel; None renders nothing. */
    function Render(): (p: Option<Panel>)
      reads this
      ensures p.None? <==> profile.None?
      ensures p.Some? ==> p.value.links == LinksFor(profile.value.role) && p.value.role == profile.value.role
    {
      match profile
      case None => None
      case Some(row) =>
        Some(Panel(row.role, IconFor(row.role), ColourFor(row.role), LinksFor(row.role),
                   row.firstname, row.lastname, row.email))
    }
  }

  /** Admins and instructors get four links, students three, and so does any
      role outside the three names. */
  lemma LinkCounts(role: string)
    ensures role == "admin" ==> |LinksFor(role)| == 4
    ensures role == "instructor" ==> |LinksFor(role)| == 4
    ensures role != "admin" && role != "instructor" ==> |LinksFor(role)| == 3 && LinksFor(role) == StudentLinks
  {
  }

  /** Whatever the role, the first link is the dashboard. */
  lemma FirstLinkIsDashboard(role: string)
    ensures |LinksFor(role)| > 0 && LinksFor(role)[0].href == "/dashboard"
  {
  }

  /** Within one list the links are distinct, so at most one is highlighted. */
  lemma AtMostOneActive(role: string, pathname: string)
    ensures var links := LinksFor(role);
            forall i, j ::
              (0 <= i < |links| && 0 <= j < |links| && IsActive(pathname, links[i]) && IsActive(pathname, links[j]))
              ==> i == j
  {
  }
}
