/** The authentication provider (src/context/AuthContext.tsx): who is signed in,
  * with which role, whether a sign-in is under way and the last error. Every
  * backend answer is a parameter; an `Err` is an error the provider throws and
  * catches itself, so no method here fails. */
module AuthContext {
  import opened Common
  import opened Types
  import TelegramClient

  // ---------------------------------------------------------------- roles

  /** `userRole === 'admin'` */
  predicate IsAdmin(userRole: Option<string>)
  {
    userRole == Some("admin")
  }

  /** The `roles(name)` read for a user: `None` when no `user_roles` row came
    * back, `Some(None)` when the row has no joined role. */
  type RoleAnswer = Option<Option<string>>

  /** `roleData && roleData.roles ? roleData.roles.name : 'user'` */
  function RoleOf(answer: RoleAnswer): (role: string)
    ensures answer.Some? && answer.value.Some? ==> role == answer.value.value
    ensures answer.None? || answer.value.None? ==> role == "user"
  {
    if answer.Some? && answer.value.Some? then answer.value.value else "user"
  }

  // ---------------------------------------------------------------- users rows

  /** The `users` columns the provider reads back for a session. */
  datatype UserRow = UserRow(
    telegramId: Option<int>,
    firstName: string,
    lastName: Option<string>,
    username: Option<string>,
    languageCode: Option<string>,
    photoUrl: Option<string>)

  /** The user built from a row: `telegram_id || 0`, the other fields as stored. */
  function UserOf(row: UserRow): (u: TelegramUser)
    ensures u.id == (if row.telegramId.Some? then row.telegramId.value else 0)
    ensures u.firstName == row.firstName && u.lastName == row.lastName && u.username == row.username
    ensures u.languageCode == row.languageCode && u.photoUrl == row.photoUrl
  {
    TelegramUser(if row.telegramId.Some? then row.telegramId.value else 0,
                 row.firstName, row.lastName, row.username, row.languageCode, row.photoUrl)
  }

  /** The development stand-in user, set when there is no session. */
  const MockUser: TelegramUser := TelegramUser(123456789, "Test", None, Some("testuser"), Some("en"), None)

  /** Whether the Telegram branch signs in: a Mini App with both an unsafe user
    * and non-empty init data. */
  predicate TelegramSignInWanted(w: TelegramClient.Window)
  {
    var app := TelegramClient.GetTelegramWebApp(w);
    app.Some? && app.value.unsafeUser.Some? && app.value.initData != ""
  }

  // ---------------------------------------------------------------- sign-up

  /** The profile data a caller passes to `signUpWithEmail`. */
  datatype UserData = UserData(firstName: string, lastName: string, username: Option<string>)

  /** The `users` row inserted for a new account. */
  datatype ProfileInsert = ProfileInsert(id: string, firstName: string, lastName: string, username: Option<string>)

  /** The `user_roles` row inserted for a new account: role 1 is "user". */
  datatype RoleInsert = RoleInsert(userId: string, roleId: int)

  const DefaultRoleId: int := 1

  class AuthProvider {
    var user: Option<TelegramUser>
    var userRole: Option<string>
    var isLoading: bool
    var error: Option<string>
    var isTelegramWebApp: bool

    /** A user and a role are set and cleared together. */
    predicate Valid()
      reads this
    {
      user.Some? <==> userRole.Some?
    }

    /** The provider as it mounts: no user, loading. */
    constructor()
      ensures Valid() && user.None? && userRole.None? && isLoading && error.None? && !isTelegramWebApp
    {
      user := None;
      userRole := None;
      isLoading := true;
      error := None;
      isTelegramWebApp := false;
    }

    /** `signInWithTelegram(telegramUser, initData)`, given what the validation
      * call returns (`Err` for what it throws), the `users` lookup by Telegram
      * id (the found row's id) and the role read for that row. */
    method SignInWithTelegram(tg: TelegramUser, validation: Outcome<TelegramClient.ReplyBody>,
                              lookup: Outcome<Option<string>>, roleAnswer: RoleAnswer)
      returns (ok: bool)
      requires Valid()
      modifies this
      ensures Valid() && !isLoading && isTelegramWebApp == old(isTelegramWebApp)
      ensures ok <==> validation.Ok? && validation.value.validated && (lookup.Err? ==> lookup.code == NotFoundCode)
      ensures validation.Err? ==> error == Some(validation.msg)
      ensures validation.Ok? && !validation.value.validated ==> error == Some("Failed to validate Telegram data")
      ensures !ok ==> user == old(user) && userRole == old(userRole)
      ensures !ok && validation.Ok? && validation.value.validated ==> error == Some(lookup.msg)
      ensures ok ==> error.None? && user == Some(tg)
      ensures ok && lookup.Ok? && lookup.value.Some? ==> userRole == Some(RoleOf(roleAnswer))
      ensures ok && (lookup.Err? || lookup.value.None?) ==> userRole == Some("user")
    {
      isLoading := true;
      error := None;
      ok := false;
      if validation.Err? {
        error := Some(validation.msg);
      } else if !validation.value.validated {
        error := Some("Failed to validate Telegram data");
      } else if lookup.Err? && lookup.code != NotFoundCode {
        error := Some(lookup.msg);
      } else {
        user := Some(tg);
        if lookup.Ok? && lookup.value.Some? {
          userRole := Some(RoleOf(roleAnswer));
        } else {
          userRole := Some("user");
        }
        ok := true;
      }
      isLoading := false;
    }

    /** A user read for a session: the user and its role are set only when the
      * read returned a row. */
    method LoadSessionUser(userAnswer: Outcome<Option<UserRow>>, roleAnswer: RoleAnswer)
      requires Valid()
      modifies this
      ensures Valid() && isLoading == old(isLoading) && error == old(error)
      ensures isTelegramWebApp == old(isTelegramWebApp)
      ensures userAnswer.Ok? && userAnswer.value.Some? ==>
        user == Some(UserOf(userAnswer.value.value)) && userRole == Some(RoleOf(roleAnswer))
      ensures userAnswer.Err? || userAnswer.value.None? ==> user == old(user) && userRole == old(userRole)
    {
      if userAnswer.Ok? && userAnswer.value.Some? {
        user := Some(UserOf(userAnswer.value.value));
        userRole := Some(RoleOf(roleAnswer));
      }
    }

    /** `initAuth()` in the window `w`: inside Telegram it signs in with the
      * Mini App's user when there is one; outside, it loads the session's user
      * (`session` is the session's user id), or in development sets the
      * stand-in user. Returns whether `signInWithTelegram` was called. */
    method InitAuth(w: TelegramClient.Window,
                    validation: Outcome<TelegramClient.ReplyBody>, lookup: Outcome<Option<string>>,
                    session: Option<string>, userAnswer: Outcome<Option<UserRow>>,
                    roleAnswer: RoleAnswer, development: bool)
      returns (signedIn: bool)
      requires Valid()
      modifies this
      ensures Valid() && !isLoading
      ensures isTelegramWebApp == (TelegramClient.GetTelegramWebApp(w).Some? || old(isTelegramWebApp))
      ensures signedIn <==> TelegramSignInWanted(w)
      ensures signedIn ==>
        var app := TelegramClient.GetTelegramWebApp(w).value;
        var ok := validation.Ok? && validation.value.validated && (lookup.Err? ==> lookup.code == NotFoundCode);
        (ok ==> user == Some(app.unsafeUser.value)) && (!ok ==> user == old(user))
      ensures TelegramClient.GetTelegramWebApp(w).Some? && !signedIn ==>
        user == old(user) && userRole == old(userRole)
      ensures TelegramClient.GetTelegramWebApp(w).None? && session.Some? ==>
        if userAnswer.Ok? && userAnswer.value.Some? then
          user == Some(UserOf(userAnswer.value.value)) && userRole == Some(RoleOf(roleAnswer))
        else user == old(user) && userRole == old(userRole)
      ensures TelegramClient.GetTelegramWebApp(w).None? && session.None? ==>
        if development then user == Some(MockUser) && userRole == Some("user")
        else user == old(user) && userRole == old(userRole)
    {
      isLoading := true;
      signedIn := false;
      var app := TelegramClient.GetTelegramWebApp(w);
      if app.Some? {
        isTelegramWebApp := true;
        if app.value.unsafeUser.Some? && app.value.initData != "" {
          var _ := SignInWithTelegram(app.value.unsafeUser.value, validation, lookup, roleAnswer);
          signedIn := true;
        }
      } else if session.Some? {
        LoadSessionUser(userAnswer, roleAnswer);
      } else if development {
        user := Some(MockUser);
        userRole := Some("user");
      }
      isLoading := false;
    }

    /** The auth-state listener: a session loads its user, no session signs
      * the user out locally. */
    method OnAuthChange(session: Option<string>, userAnswer: Outcome<Option<UserRow>>, roleAnswer: RoleAnswer)
      requires Valid()
      modifies this
      ensures Valid() && isLoading == old(isLoading) && error == old(error)
      ensures session.None? ==> user.None? && userRole.None?
      ensures session.Some? && userAnswer.Ok? && userAnswer.value.Some? ==>
        user == Some(UserOf(userAnswer.value.value)) && userRole == Some(RoleOf(roleAnswer))
      ensures session.Some? && (userAnswer.Err? || userAnswer.value.None?) ==>
        user == old(user) && userRole == old(userRole)
    {
      if session.Some? {
        LoadSessionUser(userAnswer, roleAnswer);
      } else {
        user := None;
        userRole := None;
      }
    }

    /** `signInWithEmail(email, password)`, given the password sign-in's
      * answer. The user itself arrives through the auth-state listener. */
    method SignInWithEmail(answer: Outcome<()>) returns (ok: bool)
      requires Valid()
      modifies this
      ensures Valid() && !isLoading && user == old(user) && userRole == old(userRole)
      ensures ok <==> answer.Ok?
      ensures error == (if answer.Ok? then None else Some(answer.msg))
    {
      isLoading := true;
      error := None;
      ok := answer.Ok?;
      if answer.Err? {
        error := Some(answer.msg);
      }
      isLoading := false;
    }

    /** `signUpWithEmail(email, password, userData)`, given the answers of the
      * sign-up (the new account's id, if any), the profile insert and the role
      * insert. Returns the rows it inserts. */
    method SignUpWithEmail(data: UserData, signUp: Outcome<Option<string>>, profileInsert: Outcome<()>, roleInsert: Outcome<()>)
      returns (ok: bool, profile: Option<ProfileInsert>, role: Option<RoleInsert>)
      requires Valid()
      modifies this
      ensures Valid() && !isLoading && user == old(user) && userRole == old(userRole)
      ensures signUp.Err? ==> !ok && profile.None? && role.None? && error == Some(signUp.msg)
      ensures signUp == Ok(None) ==> ok && profile.None? && role.None? && error.None?
      ensures signUp.Ok? && signUp.value.Some? ==>
        profile == Some(ProfileInsert(signUp.value.value, data.firstName, data.lastName, data.username))
      ensures role.Some? <==> signUp.Ok? && signUp.value.Some? && profileInsert.Ok?
      ensures role.Some? ==> role.value == RoleInsert(signUp.value.value, DefaultRoleId)
      ensures signUp.Ok? && signUp.value.Some? ==>
        (ok <==> profileInsert.Ok? && roleInsert.Ok?)
        && error == (if profileInsert.Err? then Some(profileInsert.msg)
                     else if roleInsert.Err? then Some(roleInsert.msg) else None)
    {
      isLoading := true;
      error := None;
      ok := false;
      profile := None;
      role := None;
      match signUp {
        case Err(_, msg) =>
          error := Some(msg);
        case Ok(created) =>
          if created.None? {
            ok := true;
          } else {
            var id := created.value;
            profile := Some(ProfileInsert(id, data.firstName, data.lastName, data.username));
            if profileInsert.Err? {
              error := Some(profileInsert.msg);
            } else {
              role := Some(RoleInsert(id, DefaultRoleId));
              if roleInsert.Err? {
                error := Some(roleInsert.msg);
              } else {
                ok := true;
              }
            }
          }
      }
      isLoading := false;
    }

    /** `signOut()`, given the backend's answer: success clears the user and
      * the role, failure keeps them. */
    method SignOut(answer: Outcome<()>) returns (ok: bool)
      requires Valid()
      modifies this
      ensures Valid() && !isLoading
      ensures ok <==> answer.Ok?
      ensures ok ==> user.None? && userRole.None? && error.None?
      ensures !ok ==> user == old(user) && userRole == old(userRole) && error == Some(answer.msg)
    {
      isLoading := true;
      error := None;
      if answer.Ok? {
        user := None;
        userRole := None;
        ok := true;
      } else {
        error := Some(answer.msg);
        ok := false;
      }
      isLoading := false;
    }
  }
}
