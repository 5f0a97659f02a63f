/**
 * The route guard of the employee dashboard: the same role normalisation,
 * a wider allowed set, and the check computed while rendering.
 */
module EmployeeDashboardPage {
  import opened Js
  import opened Roles
  import AdminDashboardPage

  /** The canonical forms of "Employee", "HR Manager" and "Super Admin". */
  const AllowedRoles: set<string> := {"employee", "hr manager", "super admin"}

  /**
   * The allowed set is "Employee" run through `normalizeRole` together
   * with the administrator dashboard's two roles.
   */
  lemma AllowedRolesAreNormalisedNames(employee: string)
    requires employee == "Employee"
    ensures AllowedRoles == {NormalizeRole(employee)} + AdminDashboardPage.AllowedRoles
  {
    EmployeeName(employee);
  }

  /** `checkAuth`: false outside a browser; otherwise a non-empty token and an allowed normalised role. */
  function CheckAuth(hasWindow: bool, token: Option<string>, rawRole: Option<string>): (allowed: bool)
    ensures allowed ==> hasWindow && Truthy(token)
    ensures hasWindow && Truthy(token) ==> (allowed <==> NormalizeRole(OptionOr(rawRole, "")) in AllowedRoles)
  {
    if !hasWindow then false
    else Truthy(token) && NormalizeRole(OptionOr(rawRole, "")) in AllowedRoles
  }

  /** Every visitor admitted to the administrator dashboard is admitted here. */
  lemma AdminAdmittedHere(token: Option<string>, rawRole: Option<string>)
    requires AdminDashboardPage.AccessGranted(token, rawRole)
    ensures CheckAuth(true, token, rawRole)
  {
  }

  /** A role normalising to "employee" is admitted here but not to the administrator dashboard. */
  lemma EmployeeOnlyHere(token: string, role: string)
    requires token != "" && NormalizeRole(role) == "employee"
    ensures CheckAuth(true, Some(token), Some(role))
    ensures !AdminDashboardPage.AccessGranted(Some(token), Some(role))
  {
  }

  /**
   * The rendered outcome: the dashboard; nothing (a server render, where
   * layout effects do not run); or nothing and a redirect to /login.
   */
  datatype Render = Dashboard | Nothing | NothingAndRedirect(target: string)

  /**
   * The page: the render returns null whenever the check fails, and the
   * layout effect, which runs only in a browser, then redirects to /login.
   */
  function RenderPage(hasWindow: bool, token: Option<string>, rawRole: Option<string>): (r: Render)
    ensures r == Dashboard <==> CheckAuth(hasWindow, token, rawRole)
    ensures !hasWindow ==> r == Nothing
    ensures hasWindow && !CheckAuth(hasWindow, token, rawRole) ==> r == NothingAndRedirect("/login")
  {
    if CheckAuth(hasWindow, token, rawRole) then Dashboard
    else if hasWindow then NothingAndRedirect("/login")
    else Nothing
  }
}
