/**
 * The login page: a register/login mode switch, and the login submit that
 * consults `AuthService` and routes the user by role.
 */
module LoginView {
  import opened Wrappers
  import Auth
  import Guards
  import Seqs

  datatype LoginPage = LoginPage(registerMode: bool)

  /** `toggleMode`. */
  function ToggleMode(p: LoginPage): (r: LoginPage)
    ensures r.registerMode == !p.registerMode
  {
    p.(registerMode := !p.registerMode)
  }

  /** Toggling twice restores the mode. */
  lemma ToggleTwice(p: LoginPage)
    ensures ToggleMode(ToggleMode(p)) == p
  {
  }

  /**
   * `onLoginSubmit`, given whether the form is valid: the session after it and
   * the navigations it issues, in order. An invalid form or unknown
   * credentials issue none; a known user issues the one for its role.
   */
  function OnLoginSubmit(s: Auth.Session, formValid: bool, email: string, password: string): (r: (Auth.Session, seq<string>))
    ensures !formValid ==> r == (s, [])
    ensures formValid ==> r.0 == Auth.Login(s, email, password).0
    ensures |r.1| <= 1
    ensures |r.1| == 1 <==> formValid && Auth.Login(s, email, password).1.Some?
    ensures |r.1| == 1 ==> r.0.current.Some? && r.1[0] == Guards.RoleHome(r.0.current.value.role)
  {
    if !formValid then (s, [])
    else
      var (after, user) := Auth.Login(s, email, password);
      match user
      case None => (after, [])
      case Some(u) =>
        var toAdmin := if u.role == Auth.Admin then ["/admin/dashboard"] else [];
        var toCustomer := if u.role == Auth.Customer then ["/customer/dashboard"] else [];
        (after, toAdmin + toCustomer)
  }

  /** Unknown credentials leave the session as it was. */
  lemma FailedLoginChangesNothing(s: Auth.Session, email: string, password: string)
    requires Auth.Login(s, email, password).1.None?
    ensures OnLoginSubmit(s, true, email, password) == (s, [])
  {
  }

  /**
   * The page a login lands on is the one the logged-out guard would send the
   * new session to, so the two routing rules agree.
   */
  lemma LoginLandsWhereGuardSends(s: Auth.Session, email: string, password: string)
    requires |OnLoginSubmit(s, true, email, password).1| == 1
    ensures var (after, navs) := OnLoginSubmit(s, true, email, password);
      Guards.LoggedOutGuard(after) == Guards.Redirect(Guards.UrlTree(navs[0], map[]))
  {
    var (after, navs) := OnLoginSubmit(s, true, email, password);
    Guards.LoggedOutGuardSendsHome(after);
  }

  /** An admin of the user table lands on the admin dashboard. */
  lemma AdminLandsOnAdminDashboard(s: Auth.Session)
    ensures OnLoginSubmit(s, true, "kamlesh@example.com", "password").1 == ["/admin/dashboard"]
  {
    var u := Auth.MockUsers[0];
    assert Auth.MatchesCredentials("kamlesh@example.com", "password")(u);
  }

  /** A customer of the user table lands on the customer dashboard. */
  lemma CustomerLandsOnCustomerDashboard(s: Auth.Session)
    ensures OnLoginSubmit(s, true, "hari@example.com", "password").1 == ["/customer/dashboard"]
  {
    var users := Auth.MockUsers;
    var p := Auth.MatchesCredentials("hari@example.com", "password");
    assert !p(users[0]) && !p(users[1]) && p(users[2]);
    assert Seqs.FindIndex(p, users[2..]) == Some(0);
    assert Seqs.FindIndex(p, users[1..]) == Some(1) by {
      assert users[1..][1..] == users[2..];
    }
    assert users[0..] == users;
  }
}
