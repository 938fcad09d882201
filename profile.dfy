/** The profile page (src/pages/ProfilePage.tsx): the avatar initials, the form
  * fields taken from the user, and the profile update. */
module Profile {
  import opened Common
  import opened Types

  /** The upper-cased first character of a name, or nothing for a missing or
    * empty name. */
  function Initial(name: Option<string>): (r: string)
    ensures !Truthy(name) ==> r == ""
    ensures Truthy(name) ==> r == [UpperChar(name.value[0])]
  {
    if Truthy(name) then [UpperChar(name.value[0])] else ""
  }

  /** `getInitials()` */
  function GetInitials(user: Option<TelegramUser>): (r: string)
    ensures user.None? ==> r == "?"
    ensures user.Some? ==>
      var both := Initial(Some(user.value.firstName)) + Initial(user.value.lastName);
      r == (if both == "" then "?" else both)
    ensures r != "" && |r| <= 2
  {
    if user.None? then "?"
    else
      var firstInitial := Initial(Some(user.value.firstName));
      var lastInitial := Initial(user.value.lastName);
      if firstInitial + lastInitial != "" then firstInitial + lastInitial
      else if firstInitial != "" then firstInitial
      else "?"
  }

  /** A user with both names gets two capital letters when the names start
    * with lower- or upper-case ASCII letters. */
  lemma InitialsOfFullName(user: TelegramUser)
    requires user.firstName != "" && user.lastName.Some? && user.lastName.value != ""
    requires 'a' <= user.firstName[0] <= 'z' || 'A' <= user.firstName[0] <= 'Z'
    requires 'a' <= user.lastName.value[0] <= 'z' || 'A' <= user.lastName.value[0] <= 'Z'
    ensures var r := GetInitials(Some(user));
      |r| == 2 && 'A' <= r[0] <= 'Z' && 'A' <= r[1] <= 'Z'
  {
  }

  /** The update sent for the profile: keyed by the user's Telegram id, an
    * empty last name or username sent as `null`. */
  datatype ProfileUpdate = ProfileUpdate(
    telegramId: Option<int>,
    firstName: string,
    lastName: Option<string>,
    username: Option<string>,
    updatedAt: string)

  function UpdateOf(user: Option<TelegramUser>, firstName: string, lastName: string, username: string, nowIso: string): (u: ProfileUpdate)
    ensures u.telegramId == (if user.Some? then Some(user.value.id) else None)
    ensures u.firstName == firstName
    ensures u.lastName == (if lastName == "" then None else Some(lastName))
    ensures u.username == (if username == "" then None else Some(username))
  {
    ProfileUpdate(if user.Some? then Some(user.value.id) else None, firstName,
                  if lastName == "" then None else Some(lastName),
                  if username == "" then None else Some(username), nowIso)
  }

  /** The one check: a blank first name is refused. */
  function FirstNameError(firstName: string): (r: Option<string>)
    ensures r.None? <==> !Blank(firstName)
    ensures r.Some? ==> r.value == "First name is required"
  {
    if Blank(firstName) then Some("First name is required") else None
  }

  class ProfilePage {
    var firstName: string
    var lastName: string
    var username: string
    var isLoading: bool
    var error: Option<string>
    var success: bool

    /** The form starts from the user's names, `''` where missing. */
    constructor(user: Option<TelegramUser>)
      ensures firstName == (if user.Some? then user.value.firstName else "")
      ensures lastName == (if user.Some? then OrElse(user.value.lastName, "") else "")
      ensures username == (if user.Some? then OrElse(user.value.username, "") else "")
      ensures !isLoading && error.None? && !success
    {
      firstName := if user.Some? then user.value.firstName else "";
      lastName := if user.Some? then OrElse(user.value.lastName, "") else "";
      username := if user.Some? then OrElse(user.value.username, "") else "";
      isLoading := false;
      error := None;
      success := false;
    }

    /** The effect that refills the form when the user changes. */
    method SyncFromUser(user: Option<TelegramUser>)
      modifies this
      ensures user.Some? ==>
        firstName == user.value.firstName && lastName == OrElse(user.value.lastName, "")
        && username == OrElse(user.value.username, "")
      ensures user.None? ==> firstName == old(firstName) && lastName == old(lastName) && username == old(username)
      ensures isLoading == old(isLoading) && error == old(error) && success == old(success)
    {
      if user.Some? {
        firstName := user.value.firstName;
        lastName := OrElse(user.value.lastName, "");
        username := OrElse(user.value.username, "");
      }
    }

    /** `handleSubmit()`, given the answer of the update; returns the update
      * sent, if any. */
    method HandleSubmit(user: Option<TelegramUser>, nowIso: string, answer: Outcome<()>) returns (update: Option<ProfileUpdate>)
      modifies this
      ensures firstName == old(firstName) && lastName == old(lastName) && username == old(username)
      ensures FirstNameError(firstName).Some? ==>
        update.None? && error == FirstNameError(firstName) && !success && isLoading == old(isLoading)
      ensures FirstNameError(firstName).None? ==>
        update == Some(UpdateOf(user, firstName, lastName, username, nowIso)) && !isLoading
      ensures FirstNameError(firstName).None? && answer.Ok? ==> success && error.None?
      ensures FirstNameError(firstName).None? && answer.Err? ==>
        !success && error == Some(OrElse(Some(answer.msg), "Failed to update profile"))
    {
      error := FirstNameError(firstName);
      success := false;
      update := None;
      if error.Some? {
        return;
      }
      isLoading := true;
      update := Some(UpdateOf(user, firstName, lastName, username, nowIso));
      match answer {
        case Ok(_) =>
          success := true;
        case Err(_, msg) =>
          error := Some(OrElse(Some(msg), "Failed to update profile"));
      }
      isLoading := false;
    }
  }
}
