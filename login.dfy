/**
 * app/page.tsx: the demonstration login, which picks the dashboard from the
 * email alone.
 */
module Login {
  import opened Strings

  /** The state of the login form. */
  datatype LoginForm = LoginForm(email: string, password: string, showPassword: bool, rememberMe: bool)

  const SuperAdminHome := "/super-admin"
  const AdminHome := "/admin"
  const UserHome := "/user"

  /** `handleSubmit`: "superadmin" in the email, then "admin", decide the route; every other email goes to /user. */
  function RouteFor(email: string): (route: string)
    ensures route == SuperAdminHome <==> Contains(email, "superadmin")
    ensures route == AdminHome <==> !Contains(email, "superadmin") && Contains(email, "admin")
    ensures route == UserHome <==> !Contains(email, "superadmin") && !Contains(email, "admin")
  {
    if Contains(email, "superadmin") then SuperAdminHome
    else if Contains(email, "admin") then AdminHome
    else UserHome
  }

  /** Submitting the form: the route depends on the email only, never on the password or the flags. */
  function Submit(form: LoginForm): (route: string)
    ensures route == RouteFor(form.email)
    ensures route in {SuperAdminHome, AdminHome, UserHome}
  {
    RouteFor(form.email)
  }

  /**
   * Every "superadmin" email also contains "admin", so the order of the two
   * tests is what sends super admins to their own dashboard.
   */
  lemma {:induction false} SuperAdminEmailContainsAdmin(email: string)
    requires Contains(email, "superadmin")
    ensures Contains(email, "admin")
    decreases |email|
  {
    if StartsWith(email, "superadmin") {
      assert email[5..][..5] == "admin";
      assert StartsWith(email[5..], "admin");
      ContainsFrom(email, 5, "admin");
    } else {
      SuperAdminEmailContainsAdmin(email[1..]);
    }
  }

  /** Matching is case-sensitive: an upper-case "ADMIN" is a plain user. */
  lemma UpperCaseAdminIsUser()
    ensures RouteFor("ADMIN") == UserHome
  {
    ContainsNeedsRoom("ADMIN", "superadmin");
    ContainsNeedsRoom("DMIN", "admin");
    assert "ADMIN"[1..] == "DMIN";
    assert !StartsWith("ADMIN", "admin") by {
      assert "ADMIN"[0] != "admin"[0];
    }
  }
}
