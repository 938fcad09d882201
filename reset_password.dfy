/** The password reset form (src/pages/ResetPasswordPage.tsx): the link check,
  * three checks in a fixed order, and the password update. */
module ResetPassword {
  import opened Common

  const ExpiredLinkMessage: string := "Invalid or expired password reset link. Please request a new one."

  /** The message of the first check that fails: empty, then too short, then
    * not matching. */
  function ResetError(password: string, confirmPassword: string): (r: Option<string>)
    ensures r.None? <==> |password| >= 8 && password == confirmPassword
    ensures password == "" ==> r == Some("Password is required")
    ensures 0 < |password| < 8 ==> r == Some("Password must be at least 8 characters long")
    ensures |password| >= 8 && password != confirmPassword ==> r == Some("Passwords do not match")
  {
    if password == "" then Some("Password is required")
    else if |password| < 8 then Some("Password must be at least 8 characters long")
    else if password != confirmPassword then Some("Passwords do not match")
    else None
  }

  /** A short password is reported as short even when the confirmation differs. */
  lemma LengthBeforeMismatch(password: string, confirmPassword: string)
    requires 0 < |password| < 8 && password != confirmPassword
    ensures ResetError(password, confirmPassword) == Some("Password must be at least 8 characters long")
  {
  }

  class ResetPasswordPage {
    var isLoading: bool
    var error: Option<string>
    var success: bool
    var isValidLink: bool

    constructor()
      ensures !isLoading && error.None? && !success && isValidLink
    {
      isLoading := false;
      error := None;
      success := false;
      isValidLink := true;
    }

    /** The mount-time session check: without a session the link is invalid. */
    method CheckSession(hasSession: bool)
      modifies this
      ensures !hasSession ==> !isValidLink && error == Some(ExpiredLinkMessage)
      ensures hasSession ==> isValidLink == old(isValidLink) && error == old(error)
      ensures success == old(success) && isLoading == old(isLoading)
    {
      if !hasSession {
        isValidLink := false;
        error := Some(ExpiredLinkMessage);
      }
    }

    /** `handleSubmit()`, given the answer of the password update; returns
      * whether the update was requested. */
    method HandleSubmit(password: string, confirmPassword: string, answer: Outcome<()>) returns (called: bool)
      modifies this
      ensures called <==> ResetError(password, confirmPassword).None?
      ensures !called ==>
        error == ResetError(password, confirmPassword) && success == old(success) && isLoading == old(isLoading)
      ensures called ==> !isLoading
      ensures called && answer.Ok? ==> success && error.None?
      ensures called && answer.Err? ==>
        success == old(success) && error == Some(OrElse(Some(answer.msg), "Failed to reset password"))
      ensures isValidLink == old(isValidLink)
    {
      error := ResetError(password, confirmPassword);
      called := error.None?;
      if !called {
        return;
      }
      isLoading := true;
      match answer {
        case Ok(_) =>
          success := true;
        case Err(_, msg) =>
          error := Some(OrElse(Some(msg), "Failed to reset password"));
      }
      isLoading := false;
    }
  }
}
