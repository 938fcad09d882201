/** The login form (src/pages/LoginPage.tsx): where to go after signing in, the
  * two checks, and the sign-in call. */
module Login {
  import opened Common

  /** `state?.from?.pathname || '/home'` */
  function RedirectTarget(fromPath: Option<string>): (r: string)
    ensures Truthy(fromPath) ==> r == fromPath.value
    ensures !Truthy(fromPath) ==> r == "/home"
  {
    OrElse(fromPath, "/home")
  }

  /** The message of the first check that fails: the email before the password. */
  function LoginError(email: string, password: string): (r: Option<string>)
    ensures r.None? <==> !Blank(email) && password != ""
    ensures Blank(email) ==> r == Some("Email is required")
    ensures !Blank(email) && password == "" ==> r == Some("Password is required")
  {
    if Blank(email) then Some("Email is required")
    else if password == "" then Some("Password is required")
    else None
  }

  class LoginPage {
    var formError: Option<string>
    /** The page navigated to, replacing the login page in the history. */
    var navigatedTo: Option<string>

    constructor()
      ensures formError.None? && navigatedTo.None?
    {
      formError := None;
      navigatedTo := None;
    }

    /** `handleSubmit()`, given the location's `from` path and what
      * `signInWithEmail` returns; returns whether it was called. */
    method HandleSubmit(fromPath: Option<string>, email: string, password: string, signedIn: bool)
      returns (called: bool)
      modifies this
      ensures formError == LoginError(email, password)
      ensures called <==> formError.None?
      ensures navigatedTo == (if called && signedIn then Some(RedirectTarget(fromPath)) else old(navigatedTo))
    {
      formError := LoginError(email, password);
      called := formError.None?;
      if !called {
        return;
      }
      if signedIn {
        navigatedTo := Some(RedirectTarget(fromPath));
      }
    }
  }
}
