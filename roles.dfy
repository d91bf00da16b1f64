/**
 * The route permission table (src/lib/roles.ts): five roles, a deny-by-default table of
 * route paths, the access check and its inverse, the set of paths a role may open.
 */
module Roles {
  import opened Wrappers

  datatype Role = Provider | Coordinator | CorporateAdmin | CorporateClinician | CorporateContributor

  /** The string value of each role, as stored and compared at run time. */
  function RoleName(r: Role): string {
    match r
    case Provider => "Provider"
    case Coordinator => "Coordinator"
    case CorporateAdmin => "Corporate Admin"
    case CorporateClinician => "Corporate Clinician"
    case CorporateContributor => "Corporate Contributor"
  }

  /** Reading a role back from its string value. */
  function RoleFromName(s: string): (r: Option<Role>)
    ensures r.Some? ==> RoleName(r.value) == s
    ensures forall role :: RoleName(role) == s ==> r == Some(role)
  {
    if s == "Provider" then Some(Provider)
    else if s == "Coordinator" then Some(Coordinator)
    else if s == "Corporate Admin" then Some(CorporateAdmin)
    else if s == "Corporate Clinician" then Some(CorporateClinician)
    else if s == "Corporate Contributor" then Some(CorporateContributor)
    else None
  }

  /** Distinct roles have distinct string values. */
  lemma RoleNameInjective(a: Role, b: Role)
    ensures RoleName(a) == RoleName(b) ==> a == b
  {
    if RoleName(a) == RoleName(b) {
      assert RoleFromName(RoleName(a)) == Some(a);
    }
  }

  /** Despite its name, the list granted to every ordinary route holds all five roles. */
  const AllNonAdmin: seq<Role> := [Provider, Coordinator, CorporateAdmin, CorporateClinician, CorporateContributor]

  const AdminRoles: seq<Role> := [CorporateAdmin, CorporateClinician, CorporateContributor]

  datatype Route = Route(path: string, roles: seq<Role>)

  /** The thirteen ordinary routes, in table order. */
  const NonAdminPaths: seq<string> := [
    "/", "/schedule", "/profile", "/documents", "/messages", "/time", "/payments",
    "/training", "/assignments", "/onboarding", "/roster-search", "/settings", "/help"]

  /** ROLE_ROUTES: every ordinary route open to AllNonAdmin, then "/admin". */
  const RoleRoutes: seq<Route> := [
    Route("/", AllNonAdmin),
    Route("/schedule", AllNonAdmin),
    Route("/profile", AllNonAdmin),
    Route("/documents", AllNonAdmin),
    Route("/messages", AllNonAdmin),
    Route("/time", AllNonAdmin),
    Route("/payments", AllNonAdmin),
    Route("/training", AllNonAdmin),
    Route("/assignments", AllNonAdmin),
    Route("/onboarding", AllNonAdmin),
    Route("/roster-search", AllNonAdmin),
    Route("/settings", AllNonAdmin),
    Route("/help", AllNonAdmin),
    Route("/admin", AdminRoles)]

  /** Some row of the table has key `path` and lists `r`. */
  predicate ListedFor(path: string, r: Role) {
    exists k :: 0 <= k < |RoleRoutes| && RoleRoutes[k].path == path && r in RoleRoutes[k].roles
  }

  predicate IsTableKey(path: string) {
    exists k :: 0 <= k < |RoleRoutes| && RoleRoutes[k].path == path
  }

  /** The roles listed for `path` in `table`, if the path is a key of it. */
  function Lookup(table: seq<Route>, path: string): (r: Option<seq<Role>>)
    ensures r.None? <==> forall k :: 0 <= k < |table| ==> table[k].path != path
    ensures r.Some? ==> exists k :: 0 <= k < |table| && table[k].path == path && table[k].roles == r.value
  {
    if table == [] then None
    else if table[0].path == path then Some(table[0].roles)
    else
      TailIndices(table);
      Lookup(table[1..], path)
  }

  lemma TailIndices(table: seq<Route>)
    requires table != []
    ensures forall k :: 1 <= k < |table| ==> table[k] == table[1..][k - 1]
  {
  }

  predicate DistinctKeys(table: seq<Route>) {
    forall i, j :: 0 <= i < j < |table| ==> table[i].path != table[j].path
  }

  /** With distinct keys, the lookup of a key yields the roles of its own row. */
  lemma {:induction false} LookupFindsRow(table: seq<Route>, k: nat)
    requires DistinctKeys(table) && k < |table|
    ensures Lookup(table, table[k].path) == Some(table[k].roles)
  {
    if k > 0 {
      assert table[1..][k - 1] == table[k];
      LookupFindsRow(table[1..], k - 1);
    }
  }

  lemma RoleRoutesDistinct()
    ensures DistinctKeys(RoleRoutes)
  {
    forall i, j | 0 <= i < j < |RoleRoutes| ensures RoleRoutes[i].path != RoleRoutes[j].path {
      if j < |NonAdminPaths| {
        assert RoleRoutes[i].path == NonAdminPaths[i] && RoleRoutes[j].path == NonAdminPaths[j];
      } else {
        assert RoleRoutes[j].path == "/admin";
        assert RoleRoutes[i].path == NonAdminPaths[i];
      }
    }
  }

  /** `path.replace(/\/$/, "") || "/"`: drop one trailing slash; an emptied path becomes "/". */
  function Normalize(path: string): (r: string)
    ensures r != ""
    ensures |path| > 1 && path[|path| - 1] == '/' ==> r == path[..|path| - 1]
    ensures (path == "" || path == "/") ==> r == "/"
    ensures path != "" && path[|path| - 1] != '/' ==> r == path
  {
    var stripped := if |path| > 0 && path[|path| - 1] == '/' then path[..|path| - 1] else path;
    if stripped == "" then "/" else stripped
  }

  /** canAccess: no role denies; otherwise the normalised path must be a key listing the role. */
  function CanAccess(path: string, role: Option<Role>): (ok: bool)
    ensures role.None? ==> !ok
    ensures ok <==> role.Some? && ListedFor(Normalize(path), role.value)
  {
    LookupAgreesWithRows(Normalize(path));
    match role
    case None => false
    case Some(r) =>
      match Lookup(RoleRoutes, Normalize(path))
      case None => false
      case Some(allowed) => r in allowed
  }

  /** Every row of a key holds the roles its lookup returns. */
  lemma LookupAgreesWithRows(key: string)
    ensures forall k :: 0 <= k < |RoleRoutes| && RoleRoutes[k].path == key
              ==> Lookup(RoleRoutes, key) == Some(RoleRoutes[k].roles)
  {
    RoleRoutesDistinct();
    forall k | 0 <= k < |RoleRoutes| && RoleRoutes[k].path == key
      ensures Lookup(RoleRoutes, key) == Some(RoleRoutes[k].roles)
    {
      LookupFindsRow(RoleRoutes, k);
    }
  }

  /** Every role is in AllNonAdmin. */
  lemma AllNonAdminHoldsEveryRole(r: Role)
    ensures r in AllNonAdmin
  {
  }

  /** Each of the five roles may open each of the thirteen ordinary routes, with or without one trailing slash. */
  lemma NonAdminRoutesOpenToAll(r: Role, i: nat)
    requires i < |NonAdminPaths|
    ensures CanAccess(NonAdminPaths[i], Some(r))
    ensures CanAccess(NonAdminPaths[i] + "/", Some(r))
  {
    NonAdminRouteOpen(r, i);
    NonAdminRouteOpenWithSlash(r, i);
  }

  lemma NonAdminRouteOpen(r: Role, i: nat)
    requires i < |NonAdminPaths|
    ensures CanAccess(NonAdminPaths[i], Some(r))
  {
    var p := NonAdminPaths[i];
    assert RoleRoutes[i].path == p;
    assert (p != "" && p[|p| - 1] != '/') || p == "/";
  }

  lemma NonAdminRouteOpenWithSlash(r: Role, i: nat)
    requires i < |NonAdminPaths|
    ensures CanAccess(NonAdminPaths[i] + "/", Some(r))
  {
    var p := NonAdminPaths[i];
    assert RoleRoutes[i].path == p;
    assert (p != "" && p[|p| - 1] != '/') || p == "/";
    assert (p + "/")[..|p + "/"| - 1] == p;
  }

  /** "/admin" is open to exactly the three corporate roles. */
  lemma AdminAccess(r: Role)
    ensures CanAccess("/admin", Some(r)) <==> r in {CorporateAdmin, CorporateClinician, CorporateContributor}
  {
    RoleRoutesDistinct();
    LookupFindsRow(RoleRoutes, 13);
    assert RoleRoutes[13] == Route("/admin", AdminRoles);
  }

  /** A path whose normal form is not a table key is denied for every role. */
  lemma UnlistedDenied(path: string, r: Role)
    requires !IsTableKey(Normalize(path))
    ensures !CanAccess(path, Some(r))
  {
  }

  /** Exactly one trailing slash is forgiven: "/schedule//" is denied although "/schedule/" is open. */
  lemma DoubleSlashDenied(r: Role)
    ensures CanAccess("/schedule/", Some(r))
    ensures !CanAccess("/schedule//", Some(r))
  {
    var p := "/schedule//";
    var q := "/schedule/";
    assert q[..|q| - 1] == "/schedule";
    assert RoleRoutes[1].path == "/schedule" && r in RoleRoutes[1].roles;
    assert p[..|p| - 1] == q;
    assert Normalize(p) == q;
    assert Normalize(q) != q;
    KeysAreNormal();
    assert !ListedFor(q, r);
  }

  /** The paths of `table` rows listing `r`. */
  function PathsListing(table: seq<Route>, r: Role): set<string> {
    set k | 0 <= k < |table| && r in table[k].roles :: table[k].path
  }

  lemma PathsListingAppend(table: seq<Route>, e: Route, r: Role)
    ensures PathsListing(table + [e], r) == PathsListing(table, r) + (if r in e.roles then {e.path} else {})
  {
    var t := table + [e];
    assert forall k :: 0 <= k < |table| ==> t[k] == table[k];
    assert t[|table|] == e;
  }

  /** The rows the loop collects are exactly the keys CanAccess grants. */
  lemma PathsListingIsAccess(r: Role)
    ensures forall p :: p in PathsListing(RoleRoutes, r) <==> IsTableKey(p) && CanAccess(p, Some(r))
  {
    KeysAreNormal();
    forall p ensures p in PathsListing(RoleRoutes, r) <==> IsTableKey(p) && CanAccess(p, Some(r)) {
      if IsTableKey(p) {
        var k :| 0 <= k < |RoleRoutes| && RoleRoutes[k].path == p;
        assert Normalize(p) == p;
      }
    }
  }

  /** getAccessiblePaths: the table keys whose row lists the role, collected by a loop. */
  method GetAccessiblePaths(role: Option<Role>) returns (paths: set<string>)
    ensures role.None? ==> paths == {}
    ensures forall p :: p in paths <==> IsTableKey(p) && CanAccess(p, role)
  {
    if role.None? {
      return {};
    }
    var r := role.value;
    paths := {};
    var i := 0;
    while i < |RoleRoutes|
      invariant 0 <= i <= |RoleRoutes|
      invariant paths == PathsListing(RoleRoutes[..i], r)
    {
      PathsListingAppend(RoleRoutes[..i], RoleRoutes[i], r);
      if r in RoleRoutes[i].roles {
        paths := paths + {RoleRoutes[i].path};
      }
      assert RoleRoutes[..i + 1] == RoleRoutes[..i] + [RoleRoutes[i]];
      i := i + 1;
    }
    assert RoleRoutes[..i] == RoleRoutes;
    PathsListingIsAccess(r);
  }

  /** Every table key is its own normal form, so the loop's rows are exactly those CanAccess consults. */
  lemma KeysAreNormal()
    ensures forall k :: 0 <= k < |RoleRoutes| ==> Normalize(RoleRoutes[k].path) == RoleRoutes[k].path
  {
    forall k | 0 <= k < |RoleRoutes| ensures Normalize(RoleRoutes[k].path) == RoleRoutes[k].path {
      if k < |NonAdminPaths| {
        assert RoleRoutes[k].path == NonAdminPaths[k];
      }
    }
  }
}
