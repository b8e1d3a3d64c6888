/** The route table and the `ProtectedRoute` guard in front of the member and admin pages. */
module Routes {
  import opened Wrappers
  import opened Domain
  import opened Text
  import opened Auth

  /** What the guard renders. */
  datatype Guard = Spinner | Redirect(to: string) | RenderPage

  /** The guard's decision, in the order the checks are made. */
  function ProtectedRoute(isLoading: bool, user: Option<User>, requireAdmin: bool): (g: Guard)
    ensures isLoading ==> g == Spinner
    ensures !isLoading && user.None? ==> g == Redirect("/")
    ensures !isLoading && user.Some? && requireAdmin && !IsAdminUser(user.value) ==> g == Redirect("/dashboard")
    ensures g == RenderPage <==> !isLoading && user.Some? && (!requireAdmin || IsAdminUser(user.value))
  {
    if isLoading then Spinner
    else if user.None? then Redirect("/")
    else if requireAdmin && !IsAdminUser(user.value) then Redirect("/dashboard")
    else RenderPage
  }

  /** The guard in terms of the access-control state. */
  lemma GuardByState(p: AuthProvider, requireAdmin: bool)
    ensures p.State().Loading? ==> ProtectedRoute(p.isLoading, p.user, requireAdmin) == Spinner
    ensures p.State().Anonymous? ==> ProtectedRoute(p.isLoading, p.user, requireAdmin) == Redirect("/")
    ensures p.State().Member? ==>
              ProtectedRoute(p.isLoading, p.user, requireAdmin) == if requireAdmin then Redirect("/dashboard") else RenderPage
    ensures p.State().Admin? ==> ProtectedRoute(p.isLoading, p.user, requireAdmin) == RenderPage
  {
  }

  datatype Access = Public | Protected(requireAdmin: bool)

  /** The explicit routes, in declaration order; anything else is the public not-found page. */
  const RouteTable: seq<(string, Access)> := [
    ("/", Public),
    ("/admin/login", Public),
    ("/register", Public),
    ("/dashboard", Protected(false)),
    ("/report", Protected(false)),
    ("/calculator", Protected(false)),
    ("/history", Protected(false)),
    ("/admin", Protected(true)),
    ("/admin/reports", Protected(true)),
    ("/admin/users", Protected(true)),
    ("/admin/statistics", Protected(true)),
    ("/admin/notifications", Protected(true))
  ]

  /** `s` without its trailing slashes. */
  function TrimTrailingSlashes(s: string): (r: string)
    ensures r <= s
    ensures r == [] || r[|r| - 1] != '/'
    ensures forall i :: |r| <= i < |s| ==> s[i] == '/'
  {
    if s != [] && s[|s| - 1] == '/' then TrimTrailingSlashes(s[..|s| - 1]) else s
  }

  /**
   * The form in which react-router compares a location with a route path: its matcher is
   * case-insensitive by default and accepts any number of trailing slashes.
   */
  function PathKey(path: string): (k: string)
    ensures |k| <= |path|
    ensures k == [] || k[|k| - 1] != '/'
    ensures forall i :: 0 <= i < |k| ==> !('A' <= k[i] <= 'Z')
  {
    TrimTrailingSlashes(Lower(path))
  }

  /** A path written in lower case and without a trailing slash is its own key. */
  lemma PlainPathKey(path: string)
    requires forall i :: 0 <= i < |path| ==> !('A' <= path[i] <= 'Z')
    requires path == [] || path[|path| - 1] != '/'
    ensures PathKey(path) == path
  {
    assert Lower(path) == path;
  }

  /** Two paths reach the same route exactly when their keys agree, so the key reaches it too. */
  lemma PathKeyIdempotent(path: string)
    ensures PathKey(PathKey(path)) == PathKey(path)
  {
    PlainPathKey(PathKey(path));
  }

  /** The declared paths are their own keys, except `/`, whose key is empty. */
  lemma RouteKeys()
    ensures PathKey("/") == ""
    ensures forall i :: 0 < i < |RouteTable| ==> PathKey(RouteTable[i].0) == RouteTable[i].0
  {
    assert Lower("/") == "/";
    forall i | 0 < i < |RouteTable|
      ensures PathKey(RouteTable[i].0) == RouteTable[i].0
    {
      PlainPathKey(RouteTable[i].0);
    }
  }

  /** The access of the first route matching `path`; the catch-all route is public. */
  function AccessOf(path: string): (a: Access)
    ensures a != Public ==> exists i :: 0 <= i < |RouteTable| && PathKey(RouteTable[i].0) == PathKey(path) && RouteTable[i].1 == a
    ensures (forall i :: 0 <= i < |RouteTable| ==> PathKey(RouteTable[i].0) != PathKey(path)) ==> a == Public
  {
    AccessIn(RouteTable, path)
  }

  function AccessIn(table: seq<(string, Access)>, path: string): (a: Access)
    ensures a != Public ==> exists i :: 0 <= i < |table| && PathKey(table[i].0) == PathKey(path) && table[i].1 == a
    ensures (forall i :: 0 <= i < |table| ==> PathKey(table[i].0) != PathKey(path)) ==> a == Public
  {
    if table == [] then Public
    else if PathKey(table[0].0) == PathKey(path) then table[0].1
    else AccessIn(table[1..], path)
  }

  /** The first route matching the path decides its access. */
  lemma {:induction false} AccessAt(table: seq<(string, Access)>, path: string, i: nat)
    requires i < |table| && PathKey(table[i].0) == PathKey(path)
    requires forall j :: 0 <= j < i ==> PathKey(table[j].0) != PathKey(path)
    ensures AccessIn(table, path) == table[i].1
  {
    if i > 0 {
      AccessAt(table[1..], path, i - 1);
    }
  }

  /** The route a path reaches depends only on its key: case and trailing slashes do not matter. */
  lemma {:induction false} AccessByKey(table: seq<(string, Access)>, path: string)
    ensures AccessIn(table, path) == AccessIn(table, PathKey(path))
  {
    PathKeyIdempotent(path);
    if table != [] {
      AccessByKey(table[1..], path);
    }
  }

  /** A path whose key is the `i`-th declared path, and no earlier one, has that route's access. */
  lemma LookUp(path: string, i: nat)
    requires 0 < i < |RouteTable| && PathKey(path) == RouteTable[i].0
    requires forall j :: 0 < j < i ==> RouteTable[j].0 != RouteTable[i].0
    ensures AccessOf(path) == RouteTable[i].1
  {
    RouteKeys();
    AccessAt(RouteTable, path, i);
  }

  /** No path is declared twice. */
  lemma DistinctPaths()
    ensures forall i, j :: 0 < j < i < |RouteTable| ==> RouteTable[j].0 != RouteTable[i].0
  {
    forall i, j | 0 < j < i < |RouteTable|
      ensures RouteTable[j].0 != RouteTable[i].0
    {
      if |RouteTable[j].0| == |RouteTable[i].0| {
        assert j == 1 && i == 9;
        assert RouteTable[j].0[7] != RouteTable[i].0[7];
      }
    }
  }

  /** Every declared path reaches its own route. */
  lemma DeclaredPath(i: nat)
    requires 0 < i < |RouteTable|
    ensures AccessOf(RouteTable[i].0) == RouteTable[i].1
  {
    DistinctPaths();
    RouteKeys();
    LookUp(RouteTable[i].0, i);
  }

  /** `/admin/` reaches the admin dashboard and its admin-only guard. */
  lemma TrailingSlashAdminPath()
    ensures AccessOf("/admin/") == Protected(true)
  {
    assert Lower("/admin/") == "/admin/";
    assert TrimTrailingSlashes("/admin/") == "/admin";
    LookUp("/admin/", 7);
  }

  /** `/Admin/Users` reaches the users page and its admin-only guard. */
  lemma CapitalisedAdminPath()
    ensures AccessOf("/Admin/Users") == Protected(true)
  {
    DeclaredPath(9);
    assert AccessIn(RouteTable, "/admin/users") == Protected(true);
    CapitalisedKey();
    AccessByKey(RouteTable, "/Admin/Users");
  }

  lemma CapitalisedKey()
    ensures PathKey("/Admin/Users") == "/admin/users"
  {
    var path := "/Admin/Users";
    var key := "/admin/users";
    forall i | 0 <= i < |path|
      ensures Lower(path)[i] == key[i]
    {
    }
    PlainPathKey(key);
  }

  /** What navigating to `path` shows. */
  function Visit(path: string, isLoading: bool, user: Option<User>): (g: Guard)
    ensures AccessOf(path) == Public ==> g == RenderPage
    ensures AccessOf(path).Protected? ==> g == ProtectedRoute(isLoading, user, AccessOf(path).requireAdmin)
  {
    match AccessOf(path)
    case Public => RenderPage
    case Protected(requireAdmin) => ProtectedRoute(isLoading, user, requireAdmin)
  }

  /** Every `/admin...` route other than the admin login page requires an admin. */
  lemma AdminPagesRequireAdmin()
    ensures forall i :: 0 <= i < |RouteTable| && StartsWith(RouteTable[i].0, "/admin") && RouteTable[i].0 != "/admin/login" ==>
              RouteTable[i].1 == Protected(true)
  {
    forall i | 0 <= i < |RouteTable|
      ensures StartsWith(RouteTable[i].0, "/admin") && RouteTable[i].0 != "/admin/login" ==> RouteTable[i].1 == Protected(true)
    {
      if i < 7 {
        var path := RouteTable[i].0;
        assert |path| < 6 || path[1] != 'a' || path == "/admin/login";
      }
    }
  }

  /** The member pages need a login and nothing more. */
  lemma MemberPagesNeedLoginOnly()
    ensures AccessOf("/dashboard") == Protected(false)
    ensures AccessOf("/report") == Protected(false)
    ensures AccessOf("/calculator") == Protected(false)
    ensures AccessOf("/history") == Protected(false)
  {
    DeclaredPath(3);
    DeclaredPath(4);
    DeclaredPath(5);
    DeclaredPath(6);
  }

  /** No protected page renders for a visitor without a session, and an admin page never renders for a non-admin. */
  lemma {:induction false} GuardedPagesStayClosed(path: string, user: Option<User>)
    ensures AccessOf(path).Protected? && user.None? ==> Visit(path, false, user) == Redirect("/")
    ensures AccessOf(path) == Protected(true) && user.Some? && !IsAdminUser(user.value) ==>
              Visit(path, false, user) == Redirect("/dashboard")
  {
  }
}
