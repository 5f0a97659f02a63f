/**
 * The route guard of the administrator dashboard: the stored token and
 * role decide, once the page runs in a browser, whether the dashboard is
 * shown or the visitor is sent to the login page.
 */
module AdminDashboardPage {
  import opened Js
  import opened Roles

  /** The canonical forms of "Super Admin" and "HR Manager". */
  const AllowedRoles: set<string> := {"super admin", "hr manager"}

  /** The allowed set is exactly the two display names run through `normalizeRole`. */
  lemma AllowedRolesAreNormalisedNames(superAdmin: string, hrManager: string)
    requires superAdmin == "Super" + " " + "Admin" && hrManager == "HR" + " " + "Manager"
    ensures AllowedRoles == {NormalizeRole(superAdmin), NormalizeRole(hrManager)}
  {
    SuperAdminName(superAdmin);
    HrManagerName(hrManager);
    assert "super" + " " + "admin" == "super admin";
    assert "hr" + " " + "manager" == "hr manager";
  }

  /** The access check: a non-empty token and an allowed normalised role (`?? ""` when no role is stored). */
  predicate AccessGranted(token: Option<string>, rawRole: Option<string>) {
    Truthy(token) && NormalizeRole(OptionOr(rawRole, "")) in AllowedRoles
  }

  /**
   * Access is granted exactly for a stored token together with a role
   * normalising to "super admin" or "hr manager"; without a token nothing
   * is granted.
   */
  lemma AccessGrantedIff(token: Option<string>, rawRole: Option<string>)
    ensures AccessGranted(token, rawRole) <==>
      token.Some? && token.value != "" && rawRole.Some? &&
      (NormalizeRole(rawRole.value) == "super admin" || NormalizeRole(rawRole.value) == "hr manager")
  {
    if rawRole.None? {
      assert NormalizeRole("") == "" by {
        assert Text.Trim("") == "";
        assert Text.ToLower("") == "";
      }
    }
  }

  /** The stored constant "SUPER_ADMIN" is admitted with any token. */
  lemma SuperAdminConstantAdmitted(token: string, role: string)
    requires token != "" && role == "SUPER" + "_" + "ADMIN"
    ensures AccessGranted(Some(token), Some(role))
  {
    SuperAdminConstant(role);
    assert "super" + " " + "admin" == "super admin";
  }

  /** Normalising the stored role first changes no decision. */
  lemma AccessIgnoresRoleSpelling(token: Option<string>, role: string)
    ensures AccessGranted(token, Some(NormalizeRole(role))) == AccessGranted(token, Some(role))
  {
    NormalizeRoleIdempotent(role);
  }

  /** The page component: `isAllowed` starts unknown; the effect settles it. */
  class Page {
    var isAllowed: Option<bool>

    constructor ()
      ensures isAllowed == None
    {
      isAllowed := None;
    }

    /**
     * The mount effect: outside a browser nothing happens; otherwise a
     * denied check sets `isAllowed` to false and redirects to /login, and a
     * granted one sets it to true without a redirect.
     */
    method CheckAccess(hasWindow: bool, token: Option<string>, rawRole: Option<string>)
      returns (redirect: Option<string>)
      modifies this
      ensures !hasWindow ==> isAllowed == old(isAllowed) && redirect == None
      ensures hasWindow && !AccessGranted(token, rawRole) ==> isAllowed == Some(false) && redirect == Some("/login")
      ensures hasWindow && AccessGranted(token, rawRole) ==> isAllowed == Some(true) && redirect == None
    {
      if !hasWindow {
        return None;
      }
      var normalizedRole := NormalizeRole(OptionOr(rawRole, ""));
      if !Truthy(token) || normalizedRole !in AllowedRoles {
        isAllowed := Some(false);
        return Some("/login");
      }
      isAllowed := Some(true);
      redirect := None;
    }

    /** The dashboard is rendered only once access is known to be granted. */
    predicate RendersDashboard()
      reads this
    {
      isAllowed == Some(true)
    }
  }

  /** After the effect in a browser, the dashboard is rendered exactly when access is granted, and a denial always redirects. */
  method MountPage(token: Option<string>, rawRole: Option<string>) returns (page: Page, redirect: Option<string>)
    ensures page.RendersDashboard() <==> AccessGranted(token, rawRole)
    ensures !page.RendersDashboard() <==> redirect == Some("/login")
  {
    page := new Page();
    redirect := page.CheckAccess(true, token, rawRole);
  }
}
