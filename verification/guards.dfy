/**
 * `RoleGuard` and `LoggedOutGuard`: allow-or-redirect decisions read off
 * the session slot of `AuthService`. Both are functions of the session, so
 * neither can change it.
 */
module Guards {
  import opened Wrappers
  import opened Auth

  /** A router URL tree: a path and its query parameters. */
  datatype UrlTree = UrlTree(path: string, query: map<string, string>)

  /** What `canActivate` returns: `true`, or a URL tree to go to instead. */
  datatype GuardResult = Allow | Redirect(tree: UrlTree)

  /** The landing page of each role. */
  function RoleHome(role: Role): string {
    match role
    case Admin => "/admin/dashboard"
    case Customer => "/customer/dashboard"
  }

  /**
   * `RoleGuard.canActivate` for a route whose data carries `roles` (or none)
   * and a requested URL. A roles list that is present but empty is truthy
   * and matches nobody.
   */
  function RoleGuard(s: Session, roles: Option<seq<Role>>, url: string): (r: GuardResult)
    ensures r == Allow <==> s.current.Some? && (roles.None? || s.current.value.role in roles.value)
    ensures s.current.None? ==> r == Redirect(UrlTree("/", map["returnUrl" := url]))
    ensures s.current.Some? && r.Redirect? ==>
      r == Redirect(UrlTree("/", map["denied" := "role", "returnUrl" := url]))
  {
    match GetCurrentUser(s)
    case None => Redirect(UrlTree("/", map["returnUrl" := url]))
    case Some(user) =>
      if roles.Some? && user.role !in roles.value then
        Redirect(UrlTree("/", map["denied" := "role", "returnUrl" := url]))
      else Allow
  }

  /**
   * The guard agrees with `AuthService`: with roles it allows exactly when
   * `hasRole(roles)`, and without roles exactly when `isLoggedIn()`.
   */
  lemma RoleGuardAgreesWithService(s: Session, roles: Option<seq<Role>>, url: string)
    ensures roles.Some? ==> (RoleGuard(s, roles, url) == Allow <==> HasRole(s, roles.value))
    ensures roles.None? ==> (RoleGuard(s, roles, url) == Allow <==> IsLoggedIn(s))
  {
  }

  /** `LoggedOutGuard.canActivate`: logged-out users pass, others go to their role's home. */
  function LoggedOutGuard(s: Session): (r: GuardResult)
    ensures r == Allow <==> !IsLoggedIn(s)
    ensures r.Redirect? ==> r.tree.query == map[]
    ensures r.Redirect? ==> r.tree.path == (if s.current.value.role == Admin then "/admin/dashboard" else "/customer/dashboard")
  {
    if !IsLoggedIn(s) then Allow
    else
      var user := GetCurrentUser(s);
      var target := if user.Some? && user.value.role == Admin then "/admin/dashboard" else "/customer/dashboard";
      Redirect(UrlTree(target, map[]))
  }

  /** For a logged-in user the entry route sends them to the landing page of their role. */
  lemma LoggedOutGuardSendsHome(s: Session)
    requires IsLoggedIn(s)
    ensures LoggedOutGuard(s) == Redirect(UrlTree(RoleHome(s.current.value.role), map[]))
  {
  }
}
