/** The forgotten-password form (src/pages/ForgotPasswordPage.tsx): one check,
  * then the reset-email request. */
module ForgotPassword {
  import opened Common

  /** The arguments of one `resetPasswordForEmail` call. */
  datatype ResetRequest = ResetRequest(email: string, redirectTo: string)

  /** The request for an email from the page served at `origin`: the link in
    * the email leads back to that origin's reset page. */
  function RequestFor(email: string, origin: string): ResetRequest
  {
    ResetRequest(email, origin + "/reset-password")
  }

  /** The request keeps the email, and its link is the origin followed by the
    * reset page's path. */
  lemma RequestLeadsBack(email: string, origin: string)
    ensures var r := RequestFor(email, origin);
      r.email == email && |r.redirectTo| == |origin| + 15
      && r.redirectTo[..|origin|] == origin && r.redirectTo[|origin|..] == "/reset-password"
  {
  }

  const SendFailedMessage: string := "Failed to send password reset email"

  /** The one check: a blank email is refused. */
  function EmailError(email: string): (r: Option<string>)
    ensures r.None? <==> !Blank(email)
    ensures r.Some? ==> r.value == "Email is required"
  {
    if Blank(email) then Some("Email is required") else None
  }

  class ForgotPasswordPage {
    var isLoading: bool
    var error: Option<string>
    var success: bool

    constructor()
      ensures !isLoading && error.None? && !success
    {
      isLoading := false;
      error := None;
      success := false;
    }

    /** `handleSubmit()` for the page served from `origin`, given the answer
      * of the reset request; returns the request made, if any. */
    method HandleSubmit(email: string, origin: string, answer: Outcome<()>) returns (request: Option<ResetRequest>)
      modifies this
      ensures EmailError(email).Some? ==>
        request.None? && error == EmailError(email) && !success && isLoading == old(isLoading)
      ensures EmailError(email).None? ==> request == Some(RequestFor(email, origin)) && !isLoading
      ensures EmailError(email).None? && answer.Ok? ==> success && error.None?
      ensures EmailError(email).None? && answer.Err? ==>
        !success && error == Some(OrElse(Some(answer.msg), SendFailedMessage))
    {
      var check := EmailError(email);
      error := check;
      success := false;
      request := None;
      if check.Some? {
        return;
      }
      isLoading := true;
      request := Some(RequestFor(email, origin));
      success := answer.Ok?;
      if answer.Err? {
        error := Some(OrElse(Some(answer.msg), SendFailedMessage));
      }
      isLoading := false;
    }
  }
}
