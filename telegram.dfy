/** The client-side Telegram helpers (src/lib/telegram.ts): detecting the Mini
  * App environment, the freshness test, accepting the validation endpoint's
  * answer, and configuring the main button. */
module TelegramClient {
  import opened Common
  import opened Types
  import TelegramValidate

  // ---------------------------------------------------------------- environment

  /** A property that may be missing (`undefined`), `null`, or hold a value. */
  datatype Slot<+T> = Undefined | Null | Present(value: T)

  /** The parts of `window.Telegram.WebApp` the application reads. */
  datatype WebApp = WebApp(initData: string, unsafeUser: Option<TelegramUser>)

  /** `window.Telegram`: absent, or an object with a `WebApp` slot. */
  datatype Window = Window(telegram: Option<Slot<WebApp>>)

  /** `window.Telegram?.WebApp !== undefined` */
  predicate IsTelegramWebApp(w: Window)
  {
    w.telegram.Some? && !w.telegram.value.Undefined?
  }

  /** `getTelegramWebApp()`: the instance, or `null`. */
  function GetTelegramWebApp(w: Window): (r: Option<WebApp>)
    ensures r.Some? <==> w.telegram.Some? && w.telegram.value.Present?
    ensures r.Some? ==> r.value == w.telegram.value.value
    ensures r.Some? ==> IsTelegramWebApp(w)
  {
    if IsTelegramWebApp(w) then
      match w.telegram.value
      case Present(app) => Some(app)
      case _ => None
    else None
  }

  /** `webApp?.initDataUnsafe.user || null` */
  function GetTelegramUser(w: Window): (r: Option<TelegramUser>)
    ensures r.Some? <==> GetTelegramWebApp(w).Some? && GetTelegramWebApp(w).value.unsafeUser.Some?
    ensures r.Some? ==> r == GetTelegramWebApp(w).value.unsafeUser
  {
    match GetTelegramWebApp(w)
    case Some(app) => app.unsafeUser
    case None => None
  }

  /** A `WebApp` property holding `null` counts as "inside Telegram", yet no
    * instance is returned: the two getters disagree exactly there. */
  lemma NullWebAppDisagreement(w: Window)
    ensures IsTelegramWebApp(w) && GetTelegramWebApp(w).None? <==> w.telegram == Some(Null)
  {
  }

  // ---------------------------------------------------------------- freshness

  /** `currentTime - authDate < 86400` */
  predicate IsInitDataRecent(now: int, authDate: int)
  {
    now - authDate < 86400
  }

  /** The client's test is strict and the server's is not: data exactly one day
    * old is no longer recent for the client, yet the server still accepts it.
    * Everywhere else the two agree. */
  lemma ClientAndServerFreshness(now: int, authDate: int)
    ensures now - authDate == 86400 ==>
      !IsInitDataRecent(now, authDate) && !TelegramValidate.Outdated(now, Some(authDate))
    ensures now - authDate != 86400 ==>
      (IsInitDataRecent(now, authDate) <==> !TelegramValidate.Outdated(now, Some(authDate)))
  {
  }

  // ---------------------------------------------------------------- validation call

  /** The JSON fields of the endpoint's answer the client reads. */
  datatype ReplyBody = ReplyBody(validated: bool, user: Option<TelegramUser>, error: Option<string>)

  /** An HTTP answer: its `ok` flag and its body read as JSON (`Err` when that throws). */
  datatype HttpReply = HttpReply(ok: bool, json: Outcome<ReplyBody>)

  /** `validateTelegramWebAppData`: `Ok` is the data it returns, `Err` the error it
    * throws. A failed `fetch` is rethrown as it is. */
  function ValidateTelegramWebAppData(fetched: Outcome<HttpReply>): (r: Outcome<ReplyBody>)
    ensures r.Ok? ==> fetched.Ok? && fetched.value.ok && fetched.value.json == r
    ensures r.Ok? ==> r.value.validated && r.value.user.Some?
    ensures fetched.Ok? && fetched.value.ok && fetched.value.json.Ok?
            && fetched.value.json.value.validated && fetched.value.json.value.user.Some? ==>
      r == fetched.value.json
    ensures fetched.Err? ==> r == Err(fetched.code, fetched.msg)
    ensures fetched.Ok? && fetched.value.ok && fetched.value.json.Err? ==> r == fetched.value.json
    ensures fetched.Ok? && !fetched.value.ok ==>
      r == Err("", if fetched.value.json.Ok? then OrElse(fetched.value.json.value.error, "Failed to validate Telegram WebApp data")
                   else "Failed to validate Telegram WebApp data")
    ensures fetched.Ok? && fetched.value.ok && fetched.value.json.Ok?
            && !(fetched.value.json.value.validated && fetched.value.json.value.user.Some?) ==>
      r == Err("", "Invalid Telegram authentication data")
  {
    match fetched
    case Err(code, msg) => Err(code, msg)
    case Ok(reply) =>
      if !reply.ok then
        var message := match reply.json
          case Ok(body) => body.error
          case Err(_, _) => None;
        Err("", OrElse(message, "Failed to validate Telegram WebApp data"))
      else
        match reply.json
        case Err(code, msg) => Err(code, msg)
        case Ok(body) =>
          if !body.validated || body.user.None? then Err("", "Invalid Telegram authentication data")
          else Ok(body)
  }

  // ---------------------------------------------------------------- main button

  /** The calls the helper makes on `MainButton`, in order. */
  datatype ButtonCall = SetText(text: string) | OnClick(handler: nat) | Enable | Disable
                      | ShowProgress(leaveActive: bool) | HideProgress | Show

  datatype ButtonOptions = ButtonOptions(
    color: Option<string>,
    textColor: Option<string>,
    isActive: Option<bool>,
    showProgress: Option<bool>)

  /** Telegram's `MainButton` object; `handlers` are the registered click
    * callbacks (named by number) and `calls` the methods invoked on it. */
  class MainButton {
    var text: string
    var color: string
    var textColor: string
    var isVisible: bool
    var isActive: bool
    var progressVisible: bool
    var handlers: seq<nat>
    var calls: seq<ButtonCall>

    constructor(color: string, textColor: string)
      ensures this.color == color && this.textColor == textColor
      ensures text == "" && !isVisible && isActive && !progressVisible
      ensures handlers == [] && calls == []
    {
      this.color := color;
      this.textColor := textColor;
      text := "";
      isVisible := false;
      isActive := true;
      progressVisible := false;
      handlers := [];
      calls := [];
    }

    /** The body of `setMainButton` once the button is at hand. */
    method Configure(text: string, onClick: nat, options: ButtonOptions)
      modifies this
      ensures this.text == text
      ensures color == (if Truthy(options.color) then options.color.value else old(color))
      ensures textColor == (if Truthy(options.textColor) then options.textColor.value else old(textColor))
      ensures handlers == old(handlers) + [onClick]
      ensures isActive <==> options.isActive != Some(false)
      ensures progressVisible <==> options.showProgress == Some(true)
      ensures isVisible
      ensures calls == old(calls) + ButtonCalls(text, onClick, options)
    {
      this.text := text;
      if Truthy(options.color) {
        color := options.color.value;
      }
      if Truthy(options.textColor) {
        textColor := options.textColor.value;
      }
      handlers := handlers + [onClick];
      var activeCall: ButtonCall;
      if options.isActive == Some(false) {
        isActive := false;
        activeCall := Disable;
      } else {
        isActive := true;
        activeCall := Enable;
      }
      var progressCall: ButtonCall;
      if options.showProgress == Some(true) {
        progressVisible := true;
        progressCall := ShowProgress(true);
      } else {
        progressVisible := false;
        progressCall := HideProgress;
      }
      isVisible := true;
      calls := calls + [SetText(text), OnClick(onClick), activeCall, progressCall, Show];
    }
  }

  /** The five calls, in the order the helper makes them. */
  function ButtonCalls(text: string, onClick: nat, options: ButtonOptions): seq<ButtonCall>
  {
    [SetText(text), OnClick(onClick),
     if options.isActive == Some(false) then Disable else Enable,
     if options.showProgress == Some(true) then ShowProgress(true) else HideProgress,
     Show]
  }

  /** The button is disabled only for an explicit `isActive: false`, progress is
    * shown only for a truthy `showProgress`, and `show()` always comes last. */
  lemma ButtonCallsShape(text: string, onClick: nat, options: ButtonOptions)
    ensures var cs := ButtonCalls(text, onClick, options);
      cs[|cs| - 1] == Show
      && (Disable in cs <==> options.isActive == Some(false))
      && (Enable in cs <==> options.isActive != Some(false))
      && (ShowProgress(true) in cs <==> options.showProgress == Some(true))
      && (HideProgress in cs <==> options.showProgress != Some(true))
  {
  }

  /** `setMainButton(text, onClick, options)`; `button` is the main button of
    * `getTelegramWebApp()`, `None` outside Telegram, where nothing happens. */
  method SetMainButton(button: Option<MainButton>, text: string, onClick: nat, options: ButtonOptions)
    modifies if button.Some? then {button.value} else {}
    ensures button.Some? ==> button.value.calls == old(button.value.calls) + ButtonCalls(text, onClick, options)
    ensures button.Some? ==> button.value.text == text && button.value.isVisible
                             && (button.value.isActive <==> options.isActive != Some(false))
  {
    if button.Some? {
      button.value.Configure(text, onClick, options);
    }
  }
}
