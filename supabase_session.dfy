/** The auth helpers of src/lib/supabase.ts: reading the current user, signing
  * out, and linking a Telegram user to an auth account through a pseudo e-mail
  * address. Every backend call is an input; the trace records which calls the
  * helper makes, in order. The random password is not modelled. */
module SupabaseSession {
  import opened Common
  import opened Types

  datatype AuthUser = AuthUser(id: string, email: string)

  /** The profile fields sent with a sign-up. */
  datatype SignUpData = SignUpData(telegramId: int, firstName: string, lastName: Option<string>, username: Option<string>)

  /** The backend calls, in the order the helper may make them. */
  datatype Call = QueryUsers(telegramId: int) | SignUp(email: string, data: SignUpData)
                | SignIn(email: string) | ResetPassword(email: string)

  /** The answers the backend gives to those calls. `lookup` says whether a
    * `users` row with this Telegram id exists. */
  datatype Answers = Answers(
    lookup: Outcome<bool>,
    signUp: Outcome<Option<AuthUser>>,
    signIn: Outcome<Option<AuthUser>>,
    reset: Outcome<()>,
    retry: Outcome<Option<AuthUser>>)

  datatype Session = Session(user: Option<AuthUser>, calls: seq<Call>)

  /** `getUser()`: the user, or `null` when the call reports an error. */
  function GetUser(answer: Outcome<Option<AuthUser>>): (r: Option<AuthUser>)
    ensures answer.Err? ==> r.None?
    ensures answer.Ok? ==> r == answer.value
  {
    match answer
    case Ok(user) => user
    case Err(_, _) => None
  }

  /** `signOut()`: true exactly when the call reports no error. */
  function SignOut(answer: Outcome<()>): (r: bool)
    ensures r <==> answer.Ok?
  {
    answer.Ok?
  }

  /** `s.includes(part)` */
  predicate Contains(s: string, part: string)
  {
    (|part| <= |s| && s[..|part|] == part) || (s != [] && Contains(s[1..], part))
  }

  /** `telegram_<id>@example.com` */
  function PseudoEmail(telegramId: int): string
  {
    "telegram_" + IntToString(telegramId) + "@example.com"
  }

  /** Different Telegram ids get different pseudo e-mail addresses. */
  lemma PseudoEmailInjective(a: int, b: int)
    requires PseudoEmail(a) == PseudoEmail(b)
    ensures a == b
  {
    var ea, eb := PseudoEmail(a), PseudoEmail(b);
    assert IntToString(a) == ea[9..|ea| - 12];
    assert IntToString(b) == eb[9..|eb| - 12];
    IntToStringInjective(a, b);
  }

  /** `createTelegramSession(user)`: the auth user it resolves to (`null` on every
    * failure, for every thrown error is caught) and the calls it makes. */
  function CreateTelegramSession(tg: TelegramUser, answers: Answers): (r: Session)
    ensures |r.calls| >= 1 && r.calls[0] == QueryUsers(tg.id)
    ensures answers.lookup.Err? && answers.lookup.code != NotFoundCode ==> r == Session(None, [QueryUsers(tg.id)])
  {
    var email := PseudoEmail(tg.id);
    var query := [QueryUsers(tg.id)];
    match answers.lookup
    case Err(code, _) =>
      if code != NotFoundCode then Session(None, query)
      else NewAccount(tg, email, answers)
    case Ok(exists_) =>
      if !exists_ then NewAccount(tg, email, answers)
      else
        var first := query + [SignIn(email)];
        match answers.signIn
        case Ok(user) => Session(user, first)
        case Err(_, msg) =>
          if !Contains(msg, "Invalid login credentials") then Session(None, first)
          else
            var reset := first + [ResetPassword(email)];
            if answers.reset.Err? then Session(None, reset)
            else
              var again := reset + [SignIn(email)];
              match answers.retry
              case Ok(user) => Session(user, again)
              case Err(_, _) => Session(None, again)
  }

  function NewAccount(tg: TelegramUser, email: string, answers: Answers): Session
  {
    var calls := [QueryUsers(tg.id), SignUp(email, SignUpData(tg.id, tg.firstName, OrNull(tg.lastName), OrNull(tg.username)))];
    match answers.signUp
    case Ok(user) => Session(user, calls)
    case Err(_, _) => Session(None, calls)
  }

  /** A user without a row (the lookup finding nothing) is signed up under the
    * pseudo e-mail address and nothing else is called; the result is the created
    * auth user, or `null` when sign-up fails. */
  lemma NewUserSignsUp(tg: TelegramUser, answers: Answers)
    requires answers.lookup == Ok(false) || (answers.lookup.Err? && answers.lookup.code == NotFoundCode)
    ensures var r := CreateTelegramSession(tg, answers);
      |r.calls| == 2 && r.calls[1].SignUp? && r.calls[1].email == PseudoEmail(tg.id)
      && r.user == (if answers.signUp.Ok? then answers.signUp.value else None)
  {
  }

  /** A user with a row is signed in. A rejected password leads to one reset;
    * a failed reset yields `null` with no retry, and a successful one leads to
    * one retry whose user is the result (`null` when it fails). No other error
    * is retried. */
  lemma ExistingUserSignsIn(tg: TelegramUser, answers: Answers)
    requires answers.lookup == Ok(true)
    ensures var r := CreateTelegramSession(tg, answers);
      var email := PseudoEmail(tg.id);
      r.calls[1] == SignIn(email)
      && (answers.signIn.Ok? ==> r.calls == [QueryUsers(tg.id), SignIn(email)] && r.user == answers.signIn.value)
      && (answers.signIn.Err? && Contains(answers.signIn.msg, "Invalid login credentials") && answers.reset.Ok? ==>
            r.calls == [QueryUsers(tg.id), SignIn(email), ResetPassword(email), SignIn(email)]
            && (answers.retry.Err? ==> r.user.None?)
            && (answers.retry.Ok? ==> r.user == answers.retry.value))
      && (answers.signIn.Err? && Contains(answers.signIn.msg, "Invalid login credentials") && answers.reset.Err? ==>
            r == Session(None, [QueryUsers(tg.id), SignIn(email), ResetPassword(email)]))
      && (answers.signIn.Err? && !Contains(answers.signIn.msg, "Invalid login credentials") ==>
            r == Session(None, [QueryUsers(tg.id), SignIn(email)]))
  {
  }

  /** Whatever the backend answers, the helper makes at most four calls, never
    * signs up an existing user, and never resets a password more than once. */
  lemma CallsBounded(tg: TelegramUser, answers: Answers)
    ensures var r := CreateTelegramSession(tg, answers);
      |r.calls| <= 4
      && (answers.lookup == Ok(true) ==> forall i :: 0 <= i < |r.calls| ==> !r.calls[i].SignUp?)
      && (forall i, j :: 0 <= i < j < |r.calls| && r.calls[i].ResetPassword? ==> !r.calls[j].ResetPassword?)
  {
  }
}
