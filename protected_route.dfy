/**
 * The route guard wrapped around every page but the sign-in and unauthorized pages
 * (src/components/ProtectedRoute.tsx): what it shows for a location, given the
 * authentication context's current value.
 */
module ProtectedRoute {
  import opened Wrappers
  import opened Roles
  import opened AuthContext

  /** The router location the guard is asked about. */
  datatype Location = Location(pathname: string, search: string, hash: string)

  /** What the guard renders. */
  datatype GuardOutcome =
    | Checking                                // the "Checking authentication..." spinner
    | RedirectToSignIn(from: Location)        // replace-navigation to /signin, remembering the location
    | RedirectToUnauthorized(fromPath: string) // replace-navigation to /unauthorized, remembering the path
    | RenderChildren

  /** `activeRole ?? user?.roles?.[0]`: the active role, else the user's first role. */
  function RoleToCheck(view: AuthView): (r: Option<Role>)
    ensures view.activeRole.Some? ==> r == view.activeRole
    ensures (view.activeRole.None? && view.user.Some? && view.user.value.roles != [])
              ==> r == Some(view.user.value.roles[0])
    ensures r.None? <==> view.activeRole.None? && (view.user.None? || view.user.value.roles == [])
  {
    if view.activeRole.Some? then view.activeRole
    else if view.user.Some? && view.user.value.roles != [] then Some(view.user.value.roles[0])
    else None
  }

  /**
   * The guard: loading first, then authentication, then the permission table for the role to
   * check. Without any role to check the permission test is skipped.
   */
  function Guard(view: AuthView, loc: Location): (g: GuardOutcome)
    ensures g.Checking? <==> view.isLoading
    ensures g.RedirectToSignIn? <==> !view.isLoading && !view.isAuthenticated
    ensures g.RedirectToSignIn? ==> g.from == loc
    ensures g.RedirectToUnauthorized? <==>
              && !view.isLoading && view.isAuthenticated && view.user.Some?
              && RoleToCheck(view).Some? && !CanAccess(loc.pathname, RoleToCheck(view))
    ensures g.RedirectToUnauthorized? ==> g.fromPath == loc.pathname
  {
    if view.isLoading then Checking
    else if !view.isAuthenticated then RedirectToSignIn(loc)
    else
      var role := RoleToCheck(view);
      if view.user.Some? && role.Some? && !CanAccess(loc.pathname, role) then RedirectToUnauthorized(loc.pathname)
      else RenderChildren
  }

  /** A page is rendered for a signed-in user only if the role checked may open its path, or no role can be checked. */
  lemma RenderedMeansPermitted(view: AuthView, loc: Location)
    requires Consistent(view)
    requires Guard(view, loc) == RenderChildren
    ensures view.user.Some? && !view.isLoading
    ensures RoleToCheck(view).None? || CanAccess(loc.pathname, RoleToCheck(view))
  {
  }

  /** With a role to check, a signed-in user is shown exactly the pages that role may open. */
  lemma GuardFollowsTable(view: AuthView, loc: Location)
    requires Consistent(view) && view.user.Some? && !view.isLoading
    requires RoleToCheck(view).Some?
    ensures Guard(view, loc) == RenderChildren <==> CanAccess(loc.pathname, RoleToCheck(view))
    ensures Guard(view, loc) != RenderChildren ==> Guard(view, loc) == RedirectToUnauthorized(loc.pathname)
  {
  }

  /** Signed in as Provider or Coordinator, "/admin" (with or without a trailing slash) redirects to /unauthorized. */
  lemma AdminRedirectsOrdinaryRoles(view: AuthView, loc: Location)
    requires Consistent(view) && view.user.Some? && !view.isLoading
    requires RoleToCheck(view) == Some(Provider) || RoleToCheck(view) == Some(Coordinator)
    requires loc.pathname == "/admin" || loc.pathname == "/admin/"
    ensures Guard(view, loc) == RedirectToUnauthorized(loc.pathname)
  {
    AdminAccess(RoleToCheck(view).value);
    var q := "/admin/";
    assert q[..|q| - 1] == "/admin";
    assert Normalize(loc.pathname) == "/admin";
  }

  /**
   * A signed-in user holding no role and with no active role skips the permission test and
   * is shown every page, "/admin" included, although the table denies a missing role everywhere.
   */
  lemma RolelessUserPassesEverywhere(view: AuthView, loc: Location)
    requires Consistent(view) && view.user.Some? && !view.isLoading
    requires view.user.value.roles == [] && view.activeRole.None?
    ensures Guard(view, loc) == RenderChildren
    ensures !CanAccess(loc.pathname, None)
  {
  }

  /** The guard over what AuthProvider exposes: signed out, every location sends the visitor to sign in. */
  lemma SignedOutGoesToSignIn(p: AuthProvider, loc: Location)
    requires p.user.None? && !p.isLoading
    ensures Guard(p.Exposed(), loc) == RedirectToSignIn(loc)
  {
  }

  /** The guard over what AuthProvider exposes: signed in with an active role, it follows that role's table rows. */
  lemma ProviderStateFollowsActiveRole(p: AuthProvider, loc: Location)
    requires p.user.Some? && p.activeRole.Some? && !p.isLoading
    ensures Guard(p.Exposed(), loc) == RenderChildren <==> CanAccess(loc.pathname, p.activeRole)
  {
  }
}
