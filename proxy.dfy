/** The role-based routing rule of the web front end. A visitor without a
    `role` cookie is sent to the login page; the shared `/dashboard` area is
    served from the admin or the user tree according to the role; the role
    trees cannot be visited directly. */
module Proxy {
  import opened Wrappers
  import opened Text

  /** What the rule answers: a redirect the browser follows, an internal
      rewrite of the served path, or pass-through. */
  datatype Decision = Redirect(to: string) | Rewrite(to: string) | Pass

  const Dashboard := "/dashboard"
  const AdminDashboard := "/admin/dashboard"
  const UserDashboard := "/user/dashboard"
  const Login := "/login"

  /** A missing cookie and an empty cookie value are both falsy. */
  predicate NoRole(role: Option<string>) { role.None? || role.value == "" }

  /** `/dashboard` itself or a page below it. */
  predicate InDashboard(path: string)
  {
    path == Dashboard || StartsWith(path, Dashboard + "/")
  }

  /** The `config.matcher` list: the rule runs only for these paths. */
  predicate Matched(path: string)
  {
    InDashboard(path) || path == AdminDashboard || path == UserDashboard
  }

  /** `path.replace("/dashboard", "")` for a path that starts with `/dashboard`:
      the first occurrence is the leading one. */
  function Remainder(path: string): (r: string)
    requires StartsWith(path, Dashboard)
    ensures path == Dashboard + r
  {
    path[|Dashboard|..]
  }

  /** The shared area and the two role trees have no path in common. */
  lemma PrefixesDisjoint(path: string)
    ensures StartsWith(path, Dashboard) ==> !StartsWith(path, AdminDashboard) && !StartsWith(path, UserDashboard)
    ensures InDashboard(path) ==> StartsWith(path, Dashboard)
  {
    if StartsWith(path, Dashboard) {
      assert path[1] == 'd';
    }
    if InDashboard(path) && path != Dashboard {
      assert path[..|Dashboard|] == (Dashboard + "/")[..|Dashboard|];
    }
  }

  /** `proxy(req)` as a function of the cookie and the path name. */
  function Route(role: Option<string>, path: string): (d: Decision)
    ensures NoRole(role) && StartsWith(path, Dashboard) ==> d == Redirect(Login)
    ensures !NoRole(role) && InDashboard(path) && role.value == "admin"
      ==> d == Rewrite(AdminDashboard + Remainder(path))
    ensures !NoRole(role) && InDashboard(path) && role.value == "user"
      ==> d == Rewrite(UserDashboard + Remainder(path))
    ensures !NoRole(role) && InDashboard(path) && role.value != "admin" && role.value != "user" ==> d == Pass
    ensures StartsWith(path, AdminDashboard) || StartsWith(path, UserDashboard) ==> d == Redirect(Dashboard)
    ensures d.Rewrite? ==> InDashboard(path) && (role == Some("admin") || role == Some("user"))
    ensures d == Redirect(Login) <==> NoRole(role) && StartsWith(path, Dashboard)
    ensures d == Redirect(Dashboard) <==> StartsWith(path, AdminDashboard) || StartsWith(path, UserDashboard)
  {
    PrefixesDisjoint(path);
    if NoRole(role) && StartsWith(path, Dashboard) then Redirect(Login)
    else if InDashboard(path) && role == Some("admin") then Rewrite(AdminDashboard + Remainder(path))
    else if InDashboard(path) && role == Some("user") then Rewrite(UserDashboard + Remainder(path))
    else if StartsWith(path, AdminDashboard) || StartsWith(path, UserDashboard) then Redirect(Dashboard)
    else Pass
  }

  /** The rule together with its matcher: unmatched paths are never touched. */
  function Middleware(role: Option<string>, path: string): (d: Decision)
    ensures !Matched(path) ==> d == Pass
    ensures Matched(path) ==> d == Route(role, path)
  {
    if Matched(path) then Route(role, path) else Pass
  }

  /** With the matcher in place, the login redirect happens exactly for a
      visitor without a role on `/dashboard` or a page below it. */
  lemma {:induction false} LoginRedirectOnlyOnDashboard(role: Option<string>, path: string)
    ensures Middleware(role, path) == Redirect(Login) <==> NoRole(role) && InDashboard(path)
  {
    PrefixesDisjoint(path);
    assert !StartsWith(AdminDashboard, Dashboard) by { assert AdminDashboard[1] != Dashboard[1]; }
    assert !StartsWith(UserDashboard, Dashboard) by { assert UserDashboard[1] != Dashboard[1]; }
  }

  /** Following redirects with an unchanged cookie, a browser settles on a page
      that is not redirected again after at most two hops. */
  lemma {:induction false} RedirectsSettle(role: Option<string>, path: string)
    ensures Route(role, path).Redirect? ==>
      var p1 := Route(role, path).to;
      !Route(role, p1).Redirect? || !Route(role, Route(role, p1).to).Redirect?
  {
    assert !StartsWith(Login, Dashboard) by { assert Login[1] != Dashboard[1]; }
    assert !StartsWith(Login, AdminDashboard) by { assert Login[1] != AdminDashboard[1]; }
    assert !StartsWith(Login, UserDashboard) by { assert Login[1] != UserDashboard[1]; }
    assert StartsWith(Dashboard, Dashboard);
    assert !StartsWith(Dashboard, AdminDashboard) by { assert Dashboard[1] != AdminDashboard[1]; }
    assert !StartsWith(Dashboard, UserDashboard) by { assert Dashboard[1] != UserDashboard[1]; }
  }
}
