/**
 * The application root: one flag decides whether the login form or the
 * analysis workspace is shown, and the form's callback sets it.
 */
module App {
  import Login

  /** What the root renders; the login form is given HandleLoginSuccess as its callback. */
  datatype Screen = WorkspaceScreen | LoginScreen

  class Application {
    var isAuthenticated: bool

    constructor ()
      ensures !isAuthenticated
    {
      isAuthenticated := false;
    }

    /** The login callback; calling it again changes nothing. */
    method HandleLoginSuccess()
      modifies this
      ensures isAuthenticated
    {
      isAuthenticated := true;
    }

    function Render(): (s: Screen)
      reads this
      ensures s == WorkspaceScreen <==> isAuthenticated
      ensures s == LoginScreen <==> !isAuthenticated
    {
      if isAuthenticated then WorkspaceScreen else LoginScreen
    }

    /**
     * The login button pressed on `form`: the form decides, and on success
     * its callback, HandleLoginSuccess, runs exactly once. The form is on
     * screen only while the flag is clear.
     */
    method ClickLogin(form: Login.LoginForm) returns (o: Login.LoginOutcome)
      requires !isAuthenticated
      modifies this
      ensures o == Login.Decide(form.credentials)
      ensures isAuthenticated == (o == Login.CallOnLogin)
      ensures form.credentials == old(form.credentials)
    {
      o := form.HandleLogin();
      if o == Login.CallOnLogin {
        HandleLoginSuccess();
      }
    }
  }
}
