/** The registration form (src/pages/RegisterPage.tsx): three checks in a fixed
  * order, then the sign-up call, then the move to the login page. */
module Register {
  import opened Common
  import opened AuthContext

  /** The message of the first check that fails, or `None` when all pass. */
  function RegisterError(email: string, password: string, confirmPassword: string, firstName: string): (r: Option<string>)
    ensures r.None? <==>
      !Blank(email) && password != "" && !Blank(firstName) && password == confirmPassword && |password| >= 8
    ensures Blank(email) || password == "" || Blank(firstName) ==>
      r == Some("Email, password, and first name are required")
    ensures !Blank(email) && password != "" && !Blank(firstName) && password != confirmPassword ==>
      r == Some("Passwords do not match")
    ensures !Blank(email) && password != "" && !Blank(firstName) && password == confirmPassword && |password| < 8 ==>
      r == Some("Password must be at least 8 characters long")
  {
    if Blank(email) || password == "" || Blank(firstName) then Some("Email, password, and first name are required")
    else if password != confirmPassword then Some("Passwords do not match")
    else if |password| < 8 then Some("Password must be at least 8 characters long")
    else None
  }

  /** A mismatch is reported even for a password that is also too short. */
  lemma MismatchBeforeLength(email: string, password: string, confirmPassword: string, firstName: string)
    requires !Blank(email) && !Blank(firstName) && 0 < |password| < 8 && password != confirmPassword
    ensures RegisterError(email, password, confirmPassword, firstName) == Some("Passwords do not match")
  {
  }

  /** The profile data passed to the sign-up: an empty username is left out. */
  function UserDataOf(firstName: string, lastName: string, username: string): (d: UserData)
    ensures d.username.None? <==> username == ""
    ensures d.username.Some? ==> d.username.value == username
  {
    UserData(firstName, lastName, if username == "" then None else Some(username))
  }

  /** The arguments of one `signUpWithEmail` call. */
  datatype SignUpCall = SignUpCall(email: string, password: string, userData: UserData)

  class RegisterPage {
    var formError: Option<string>
    var navigatedTo: Option<string>

    constructor()
      ensures formError.None? && navigatedTo.None?
    {
      formError := None;
      navigatedTo := None;
    }

    /** `handleSubmit()` over the form fields, given what the sign-up returns;
      * returns the sign-up call made, if any. */
    method HandleSubmit(email: string, password: string, confirmPassword: string,
                        firstName: string, lastName: string, username: string, signedUp: bool)
      returns (call: Option<SignUpCall>)
      modifies this
      ensures formError == RegisterError(email, password, confirmPassword, firstName)
      ensures call.Some? <==> formError.None?
      ensures call.Some? ==> call.value == SignUpCall(email, password, UserDataOf(firstName, lastName, username))
      ensures navigatedTo == (if call.Some? && signedUp then Some("/login") else old(navigatedTo))
    {
      formError := RegisterError(email, password, confirmPassword, firstName);
      call := None;
      if formError.Some? {
        return;
      }
      call := Some(SignUpCall(email, password, UserDataOf(firstName, lastName, username)));
      if signedUp {
        navigatedTo := Some("/login");
      }
    }
  }
}
