/**
 * The administrator flag of a dashboard session (`admin_logged_in` in
 * Streamlit's session state). Both dashboards use the same logic: it starts
 * false, the login form is offered only while it is false and sets it when
 * the password is "admin123", and "Logout Admin" clears it.
 */
module Admin {

  const AdminPassword: string := "admin123"

  class AdminSession {
    var adminLoggedIn: bool

    /** A fresh session is not an administrator's. */
    constructor New()
      ensures !adminLoggedIn
    {
      adminLoggedIn := false;
    }

    /**
     * "Login" on the export page. The form is shown only while logged out;
     * a wrong password leaves the flag false.
     */
    method Login(password: string)
      modifies this
      ensures adminLoggedIn == AfterLogin(old(adminLoggedIn), password)
    {
      if !adminLoggedIn {
        if password == AdminPassword {
          adminLoggedIn := true;
        }
      }
    }

    /** "Logout Admin". */
    method Logout()
      modifies this
      ensures !adminLoggedIn
    {
      adminLoggedIn := false;
    }
  }

  /** The flag after one login attempt, as `Login` sets it. */
  function AfterLogin(loggedIn: bool, password: string): (r: bool)
    ensures loggedIn ==> r
    ensures !loggedIn ==> (r <==> password == AdminPassword)
  {
    loggedIn || password == AdminPassword
  }

  /** The flag after a run of login attempts. */
  function AfterLogins(loggedIn: bool, passwords: seq<string>): bool
    decreases |passwords|
  {
    if passwords == [] then loggedIn
    else AfterLogins(AfterLogin(loggedIn, passwords[0]), passwords[1..])
  }

  /**
   * After a run of attempts a session is an administrator's exactly when it
   * already was or one of the attempts used the admin password.
   */
  lemma {:induction false} LoggedInIffSomeAttemptCorrect(loggedIn: bool, passwords: seq<string>)
    ensures AfterLogins(loggedIn, passwords) <==> loggedIn || AdminPassword in passwords
    decreases |passwords|
  {
    if passwords != [] {
      LoggedInIffSomeAttemptCorrect(AfterLogin(loggedIn, passwords[0]), passwords[1..]);
      assert passwords == [passwords[0]] + passwords[1..];
    }
  }
}
