/** `ProtectedRoute`: the role guard in front of every private page. */
module ProtectedRoute {
  import opened Common
  import opened Types

  const UserDashboard: string := "/user/dashboard"
  const DermatologistDashboard: string := "/dermatologist/dashboard"
  const AdminDashboard: string := "/admin/dashboard"
  const LoginPath: string := "/login"

  datatype Outcome = Render | Redirect(path: string)

  /** A role's own landing page; `None` for a role outside the three known ones. */
  function DashboardOf(role: string): (p: Option<string>)
    ensures p.Some? <==> role in {RoleUser, RoleDermatologist, RoleAdmin}
  {
    if role == RoleUser then Some(UserDashboard)
    else if role == RoleDermatologist then Some(DermatologistDashboard)
    else if role == RoleAdmin then Some(AdminDashboard)
    else None
  }

  /** The three dashboards are distinct, so a redirect names exactly one role. */
  lemma DashboardsDistinct(r1: string, r2: string)
    requires DashboardOf(r1).Some? && DashboardOf(r1) == DashboardOf(r2)
    ensures r1 == r2
  {
  }

  function Guard(isAuthenticated: bool, userData: Option<User>, allowedRoles: seq<string>): (o: Outcome)
    ensures !isAuthenticated ==> o == Redirect(LoginPath)
    ensures isAuthenticated ==>
      (o.Redirect? <==> userData.Some? && userData.value.role !in allowedRoles
                        && DashboardOf(userData.value.role).Some?)
    ensures isAuthenticated && o.Redirect? ==> Some(o.path) == DashboardOf(userData.value.role)
  {
    if !isAuthenticated then Redirect(LoginPath)
    else if userData.Some? && userData.value.role !in allowedRoles then
      match DashboardOf(userData.value.role)
      case Some(p) => Redirect(p)
      case None => Render
    else Render
  }

  /** An allowed role renders the page. */
  lemma AllowedRoleRenders(u: User, allowedRoles: seq<string>)
    requires u.role in allowedRoles
    ensures Guard(true, Some(u), allowedRoles) == Render
  {
  }

  /** A disallowed known role goes to its own dashboard, whatever the allow-list says. */
  lemma RedirectIgnoresAllowList(u: User, a1: seq<string>, a2: seq<string>)
    requires u.role !in a1 && u.role !in a2
    ensures Guard(true, Some(u), a1) == Guard(true, Some(u), a2)
  {
  }

  /** A role outside the three known values is not stopped. */
  lemma UnknownRoleRenders(u: User, allowedRoles: seq<string>)
    requires DashboardOf(u.role).None?
    ensures Guard(true, Some(u), allowedRoles) == Render
  {
  }

  /** The routing table's role lists. */
  const UserOnly: seq<string> := [RoleUser]
  const DermatologistOnly: seq<string> := [RoleDermatologist]
  const AdminOnly: seq<string> := [RoleAdmin]

  /** A signed-in user never reaches another role's page: each role is
      sent to its own dashboard by the other two roles' guards. */
  lemma CrossRoleRedirects(u: User)
    ensures u.role == RoleUser ==>
      Guard(true, Some(u), DermatologistOnly) == Redirect(UserDashboard)
      && Guard(true, Some(u), AdminOnly) == Redirect(UserDashboard)
    ensures u.role == RoleDermatologist ==>
      Guard(true, Some(u), UserOnly) == Redirect(DermatologistDashboard)
      && Guard(true, Some(u), AdminOnly) == Redirect(DermatologistDashboard)
    ensures u.role == RoleAdmin ==>
      Guard(true, Some(u), UserOnly) == Redirect(AdminDashboard)
      && Guard(true, Some(u), DermatologistOnly) == Redirect(AdminDashboard)
  {
  }
}
