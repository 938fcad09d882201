/** The serverless endpoint that checks a Telegram Mini App's `initData`
  * (api/auth/telegram/validate.ts): method and input guards, the HMAC-SHA-256
  * signature over the sorted data-check string, the one-day freshness window,
  * the user record, and the create-or-update of the `users` row. */
module TelegramValidate {
  import opened Common
  import opened FormQuery
  import KeySort

  newtype byte = x: int | 0 <= x < 256

  /** The cryptographic primitives the endpoint calls: HMAC-SHA-256 keyed by its
    * first argument, and UTF-8 encoding. Their internals are not part of this model. */
  datatype Crypto = Crypto(hmacSha256: (seq<byte>, seq<byte>) -> seq<byte>, utf8: string -> seq<byte>)

  /** What `JSON.parse` makes of the `user` parameter: `null`, a value without an
    * `id` property (number, string, boolean, array), or an object. */
  datatype Json = JNull | JOther | JObject(user: UserJson)

  /** The fields of the Telegram user object the endpoint reads. */
  datatype UserJson = UserJson(
    id: Option<int>,
    firstName: Option<string>,
    lastName: Option<string>,
    username: Option<string>,
    languageCode: Option<string>,
    photoUrl: Option<string>)

  /** A row of the `users` table, keyed by `telegram_id`. `updatedAt` is absent
    * until the endpoint first updates the row. */
  datatype UserRow = UserRow(
    telegramId: int,
    firstName: Option<string>,
    lastName: Option<string>,
    username: Option<string>,
    languageCode: Option<string>,
    photoUrl: Option<string>,
    updatedAt: Option<string>)

  datatype Request = Request(httpMethod: string, initData: Option<string>)

  datatype Body = ErrorBody(error: string) | Validated(user: UserJson)

  datatype Response = Response(status: int, body: Body)

  /** Everything the handler takes from its surroundings: the clock (seconds and
    * ISO text), the crypto primitives, `JSON.parse` (`None` when it throws), and
    * faults the database may answer the lookup or the write with. */
  datatype Env = Env(
    now: int,
    nowIso: string,
    crypto: Crypto,
    parseJson: string -> Option<Json>,
    lookupFault: Option<(string, string)>,
    writeFault: Option<(string, string)>)

  /** The handler's answer, the `users` table afterwards, and whether it queried the table. */
  datatype Handled = Handled(response: Response, users: map<int, UserRow>, queried: bool)

  const MaxAgeSeconds: int := 86400

  // ---------------------------------------------------------------- hex digest

  function HexDigit(n: int): (c: char)
    requires 0 <= n < 16
  {
    if n < 10 then ('0' as int + n) as char else ('a' as int + n - 10) as char
  }

  function HexValue(c: char): int
  {
    if '0' <= c <= '9' then c as int - '0' as int
    else if 'a' <= c <= 'f' then c as int - 'a' as int + 10
    else 0
  }

  /** `digest('hex')`: two lower-case hex digits per byte. */
  function Hex(bs: seq<byte>): (r: string)
    ensures |r| == 2 * |bs|
  {
    if bs == [] then ""
    else [HexDigit(bs[0] as int / 16), HexDigit(bs[0] as int % 16)] + Hex(bs[1..])
  }

  function Unhex(s: string): seq<byte>
    requires |s| % 2 == 0
  {
    if s == [] then []
    else
      var v := HexValue(s[0]) * 16 + HexValue(s[1]);
      [if 0 <= v < 256 then v as byte else 0] + Unhex(s[2..])
  }

  /** The hex text determines the digest: distinct digests give distinct signatures. */
  lemma {:induction false} UnhexHex(bs: seq<byte>)
    ensures Unhex(Hex(bs)) == bs
  {
    if bs != [] {
      var h := Hex(bs);
      assert h[2..] == Hex(bs[1..]);
      UnhexHex(bs[1..]);
    }
  }

  // ---------------------------------------------------------------- the signed data

  function Lines(entries: Pairs): seq<string>
  {
    if entries == [] then [] else [entries[0].0 + "=" + entries[0].1] + Lines(entries[1..])
  }

  /** The pairs other than `hash`, sorted by name, written `name=value`, one per line. */
  function DataCheckString(ps: Pairs): string
  {
    Join(Lines(KeySort.SortByKey(Delete(ps, "hash"))), "\n")
  }

  /** The hex HMAC of the data-check string, keyed by HMAC("WebAppData", bot token). */
  function Signature(crypto: Crypto, botToken: string, dataCheck: string): string
  {
    var secretKey := crypto.hmacSha256(crypto.utf8("WebAppData"), crypto.utf8(botToken));
    Hex(crypto.hmacSha256(secretKey, crypto.utf8(dataCheck)))
  }

  /** `parseInt(params.get('auth_date') || '0', 10)`; `None` is `NaN`. */
  function AuthDate(ps: Pairs): Option<int>
  {
    ParseInt(OrElse(Get(ps, "auth_date"), "0"))
  }

  /** `currentTime - authDate > 86400`; every comparison with `NaN` is false. */
  predicate Outdated(now: int, authDate: Option<int>)
  {
    authDate.Some? && now - authDate.value > MaxAgeSeconds
  }

  lemma {:induction false} DeleteKeepsDistinct(ps: Pairs, name: string)
    requires KeySort.DistinctKeys(ps)
    ensures KeySort.DistinctKeys(Delete(ps, name))
  {
    if ps != [] {
      DeleteKeepsDistinct(ps[1..], name);
      if ps[0].0 != name {
        var r := Delete(ps, name);
        forall i, j | 0 <= i < j < |r| ensures r[i].0 != r[j].0 {
          if i == 0 {
            assert r[j] in multiset(Delete(ps[1..], name));
            assert r[j] in multiset(ps[1..]);
            var b :| 0 <= b < |ps[1..]| && ps[1..][b] == r[j];
            assert ps[b + 1] == r[j];
          }
        }
      }
    }
  }

  /** The data-check string depends on which pairs `initData` carries, not on
    * the order it lists them in (pair names being distinct, as Telegram sends them). */
  lemma DataCheckStringOrderIndependent(p1: Pairs, p2: Pairs)
    requires KeySort.DistinctKeys(p1)
    requires multiset(p1) == multiset(p2)
    ensures DataCheckString(p1) == DataCheckString(p2)
  {
    var d1, d2 := Delete(p1, "hash"), Delete(p2, "hash");
    assert multiset(d1) == multiset(d2) by {
      forall x ensures multiset(d1)[x] == multiset(d2)[x] {
      }
    }
    DeleteKeepsDistinct(p1, "hash");
    KeySort.SortByKeyDistinct(d1);
    KeySort.SortByKeySorted(d1);
    KeySort.SortByKeySorted(d2);
    KeySort.SortedPermutationUnique(KeySort.SortByKey(d1), KeySort.SortByKey(d2));
  }

  // ---------------------------------------------------------------- the users table

  /** `.from('users').select('*').eq('telegram_id', id).single()` */
  function LookupUser(users: map<int, UserRow>, id: int, fault: Option<(string, string)>): (r: Outcome<UserRow>)
    ensures r.Ok? <==> fault.None? && id in users
    ensures r.Ok? ==> r.value == users[id]
    ensures fault.None? && id !in users ==> r.Err? && r.code == NotFoundCode
  {
    if fault.Some? then Err(fault.value.0, fault.value.1)
    else if id in users then Ok(users[id])
    else Err(NotFoundCode, "JSON object requested, multiple (or no) rows returned")
  }

  /** The row inserted for a user seen for the first time. */
  function NewRow(id: int, u: UserJson): UserRow
  {
    UserRow(id, u.firstName, OrNull(u.lastName), OrNull(u.username), OrNull(u.languageCode),
            OrNull(u.photoUrl), None)
  }

  /** The row after the display fields of a returning user are refreshed. */
  function RefreshedRow(row: UserRow, u: UserJson, nowIso: string): UserRow
  {
    row.(firstName := u.firstName, lastName := OrNull(u.lastName), username := OrNull(u.username),
         languageCode := OrNull(u.languageCode), photoUrl := OrNull(u.photoUrl),
         updatedAt := Some(nowIso))
  }

  function Fail(status: int, message: string, users: map<int, UserRow>, queried: bool): Handled
  {
    Handled(Response(status, ErrorBody(message)), users, queried)
  }

  /** Lookup, then insert or update, for a user whose `id` passed the checks. */
  function Upsert(users: map<int, UserRow>, id: int, u: UserJson, env: Env): (h: Handled)
    ensures h.queried
    ensures h.response.status == 200 || h.response.status == 500
  {
    var found := LookupUser(users, id, env.lookupFault);
    if found.Err? && found.code != NotFoundCode then Fail(500, "Database error", users, true)
    else if found.Err? then
      if env.writeFault.Some? then Fail(500, "Failed to create user", users, true)
      else Handled(Response(200, Validated(u)), users[id := NewRow(id, u)], true)
    else
      if env.writeFault.Some? then Fail(500, "Failed to update user", users, true)
      else Handled(Response(200, Validated(u)), users[id := RefreshedRow(found.value, u, env.nowIso)], true)
  }

  /** The verdict of the checks that precede the database, in the order the
    * endpoint makes them. */
  datatype Verdict = Refuse(status: int, message: string) | Accept(user: UserJson)

  function Check(botToken: Option<string>, req: Request, env: Env): (v: Verdict)
    ensures v.Accept? ==> v.user.id.Some? && v.user.id.value != 0
    ensures v.Refuse? ==> v.status != 200
  {
    if req.httpMethod != "POST" then Refuse(405, "Method not allowed")
    else if !Truthy(req.initData) then Refuse(400, "Missing initData")
    else if !Truthy(botToken) then Refuse(500, "Bot token not configured")
    else
      var ps := Parse(req.initData.value);
      if !Truthy(Get(ps, "hash")) then Refuse(400, "Invalid initData: missing hash")
      else if !SignatureMatches(env.crypto, botToken.value, ps) then Refuse(401, "Invalid hash")
      else CheckSigned(req, env)
  }

  /** The `hash` parameter equals the signature of the data-check string. */
  predicate SignatureMatches(crypto: Crypto, botToken: string, ps: Pairs)
    requires Truthy(Get(ps, "hash"))
  {
    Signature(crypto, botToken, DataCheckString(ps)) == Get(ps, "hash").value
  }

  /** The parameters the endpoint reads once `hash` is deleted. */
  function SignedParams(req: Request): Pairs
    requires Truthy(req.initData)
  {
    Delete(Parse(req.initData.value), "hash")
  }

  /** What `JSON.parse` makes of the `user` parameter, `{}` when it is missing. */
  function UserJsonOf(req: Request, env: Env): Option<Json>
    requires Truthy(req.initData)
  {
    env.parseJson(OrElse(Get(SignedParams(req), "user"), "{}"))
  }

  /** The checks after the signature: freshness, then the user object. */
  function CheckSigned(req: Request, env: Env): (v: Verdict)
    requires Truthy(req.initData)
    ensures v.Accept? ==> v.user.id.Some? && v.user.id.value != 0
    ensures v.Refuse? ==> v.status != 200
  {
    if Outdated(env.now, AuthDate(SignedParams(req))) then Refuse(401, "Authentication data is outdated")
    else CheckUser(UserJsonOf(req, env))
  }

  /** `if (!userData.id)`, where reading `id` of `null` (or a parse that threw) ends in the `catch`. */
  function CheckUser(parsed: Option<Json>): (v: Verdict)
    ensures v.Accept? ==> v.user.id.Some? && v.user.id.value != 0
    ensures v.Refuse? ==> v.status != 200
  {
    match parsed
    case None => Refuse(500, "Internal server error")
    case Some(JNull) => Refuse(500, "Internal server error")
    case Some(JOther) => Refuse(400, "Invalid user data")
    case Some(JObject(u)) =>
      if u.id.None? || u.id.value == 0 then Refuse(400, "Invalid user data")
      else Accept(u)
  }

  /** The database step succeeds exactly when neither the lookup (other than
    * finding no row) nor the write fails; only then does the table change. */
  lemma UpsertOutcome(users: map<int, UserRow>, id: int, u: UserJson, env: Env)
    ensures var h := Upsert(users, id, u, env);
      h.response.status == 200 <==>
        (env.lookupFault.None? || env.lookupFault.value.0 == NotFoundCode) && env.writeFault.None?
    ensures var h := Upsert(users, id, u, env);
      h.response.status == 200 ==>
        h.response.body == Validated(u)
        && h.users == users[id := (if id in users && env.lookupFault.None?
                                   then RefreshedRow(users[id], u, env.nowIso)
                                   else NewRow(id, u))]
    ensures var h := Upsert(users, id, u, env);
      h.response.status != 200 ==> h.users == users
  {
    var found := LookupUser(users, id, env.lookupFault);
    var h := Upsert(users, id, u, env);
    if found.Err? && found.code != NotFoundCode {
      assert env.lookupFault.Some? && env.lookupFault.value.0 != NotFoundCode;
      assert h == Fail(500, "Database error", users, true);
    } else if found.Err? {
      assert env.lookupFault.None? || env.lookupFault.value.0 == NotFoundCode;
      assert !(id in users && env.lookupFault.None?);
    } else {
      assert id in users && env.lookupFault.None? && found.value == users[id];
    }
  }

  /** The handler: the checks, then the lookup and the insert or update. */
  function HandleSpec(users: map<int, UserRow>, botToken: Option<string>, req: Request, env: Env): Handled
  {
    Decide(users, Check(botToken, req, env), env)
  }

  /** What the handler does once the checks have given their verdict. */
  function Decide(users: map<int, UserRow>, v: Verdict, env: Env): Handled
    requires v.Accept? ==> v.user.id.Some?
  {
    match v
    case Refuse(status, message) => Fail(status, message, users, false)
    case Accept(u) => Upsert(users, u.id.value, u, env)
  }

  /** `SuccessExactly` for a given verdict. */
  lemma DecideOutcome(users: map<int, UserRow>, v: Verdict, env: Env)
    requires v.Accept? ==> v.user.id.Some?
    requires v.Refuse? ==> v.status != 200
    ensures var h := Decide(users, v, env);
      h.response.status == 200 <==>
        v.Accept? && (env.lookupFault.None? || env.lookupFault.value.0 == NotFoundCode) && env.writeFault.None?
    ensures var h := Decide(users, v, env);
      h.response.status == 200 ==>
        var id := v.user.id.value;
        h.response.body == Validated(v.user)
        && h.users == users[id := (if id in users && env.lookupFault.None?
                                   then RefreshedRow(users[id], v.user, env.nowIso)
                                   else NewRow(id, v.user))]
    ensures var h := Decide(users, v, env);
      h.response.status != 200 ==> h.users == users
  {
    if v.Accept? {
      UpsertOutcome(users, v.user.id.value, v.user, env);
    }
  }

  // ---------------------------------------------------------------- properties

  /** Anything but POST is refused before any other check. */
  lemma NonPostRefused(users: map<int, UserRow>, botToken: Option<string>, req: Request, env: Env)
    requires req.httpMethod != "POST"
    ensures HandleSpec(users, botToken, req, env) == Fail(405, "Method not allowed", users, false)
  {
  }

  /** A hash that does not match the signature is refused with 401, and the
    * users table is neither read nor written. */
  lemma ForgedHashRefused(users: map<int, UserRow>, botToken: Option<string>, req: Request, env: Env)
    requires req.httpMethod == "POST" && Truthy(req.initData) && Truthy(botToken)
    requires Truthy(Get(Parse(req.initData.value), "hash"))
    requires Signature(env.crypto, botToken.value, DataCheckString(Parse(req.initData.value)))
             != Get(Parse(req.initData.value), "hash").value
    ensures HandleSpec(users, botToken, req, env) == Fail(401, "Invalid hash", users, false)
  {
  }

  /** The three input guards answer in this order, before the signature is
    * computed and without touching the table: no `initData`, then no bot
    * token, then no `hash` parameter. */
  lemma GuardsInOrder(users: map<int, UserRow>, botToken: Option<string>, req: Request, env: Env)
    requires req.httpMethod == "POST"
    ensures !Truthy(req.initData) ==>
      HandleSpec(users, botToken, req, env) == Fail(400, "Missing initData", users, false)
    ensures Truthy(req.initData) && !Truthy(botToken) ==>
      HandleSpec(users, botToken, req, env) == Fail(500, "Bot token not configured", users, false)
    ensures Truthy(req.initData) && Truthy(botToken) && !Truthy(Get(Parse(req.initData.value), "hash")) ==>
      HandleSpec(users, botToken, req, env) == Fail(400, "Invalid initData: missing hash", users, false)
  {
  }

  /** A POST whose `initData` carries a `hash` equal to the signature the bot
    * token gives the data-check string. */
  predicate Signed(botToken: Option<string>, req: Request, env: Env)
  {
    req.httpMethod == "POST" && Truthy(req.initData) && Truthy(botToken)
    && Truthy(Get(Parse(req.initData.value), "hash"))
    && SignatureMatches(env.crypto, botToken.value, Parse(req.initData.value))
  }

  /** A signed request is refused as outdated exactly when its `auth_date` is more
    * than a day before now; the table is then neither read nor written. */
  lemma OutdatedRefused(users: map<int, UserRow>, botToken: Option<string>, req: Request, env: Env)
    requires Signed(botToken, req, env)
    ensures HandleSpec(users, botToken, req, env) == Fail(401, "Authentication data is outdated", users, false)
            <==> Outdated(env.now, AuthDate(SignedParams(req)))
  {
    var v := Check(botToken, req, env);
    SignedCheck(botToken, req, env);
    assert HandleSpec(users, botToken, req, env) == Decide(users, v, env);
    if !Outdated(env.now, AuthDate(SignedParams(req))) {
      assert v == CheckUser(UserJsonOf(req, env));
    }
  }

  /** A signed, fresh request whose user is `null` or not JSON fails with 500
    * `Internal server error`; a user without a non-zero `id` fails with 400
    * `Invalid user data`. Neither reads the table. */
  lemma UserDataRefused(users: map<int, UserRow>, botToken: Option<string>, req: Request, env: Env)
    requires Signed(botToken, req, env) && !Outdated(env.now, AuthDate(SignedParams(req)))
    ensures UserJsonOf(req, env).None? || UserJsonOf(req, env) == Some(JNull) ==>
      HandleSpec(users, botToken, req, env) == Fail(500, "Internal server error", users, false)
    ensures UserJsonOf(req, env) == Some(JOther)
            || (UserJsonOf(req, env).Some? && UserJsonOf(req, env).value.JObject?
                && (UserJsonOf(req, env).value.user.id.None? || UserJsonOf(req, env).value.user.id.value == 0)) ==>
      HandleSpec(users, botToken, req, env) == Fail(400, "Invalid user data", users, false)
  {
    var v := Check(botToken, req, env);
    SignedCheck(botToken, req, env);
    assert HandleSpec(users, botToken, req, env) == Decide(users, v, env);
    assert v == CheckUser(UserJsonOf(req, env));
  }

  /** Past the signature, the checks are those of `CheckSigned`. */
  lemma SignedCheck(botToken: Option<string>, req: Request, env: Env)
    requires Signed(botToken, req, env)
    ensures Check(botToken, req, env) == CheckSigned(req, env)
  {
  }

  /** The checks accept exactly the signed, fresh POST requests whose `user` is
    * an object with a non-zero `id`, and they pass that object on. */
  lemma CheckAccepts(botToken: Option<string>, req: Request, env: Env)
    ensures Check(botToken, req, env).Accept? <==>
      Signed(botToken, req, env) && !Outdated(env.now, AuthDate(SignedParams(req)))
      && UserJsonOf(req, env).Some? && UserJsonOf(req, env).value.JObject?
      && UserJsonOf(req, env).value.user.id.Some? && UserJsonOf(req, env).value.user.id.value != 0
    ensures Check(botToken, req, env).Accept? ==>
      Some(JObject(Check(botToken, req, env).user)) == UserJsonOf(req, env)
  {
    if Signed(botToken, req, env) {
      SignedCheck(botToken, req, env);
      var j := UserJsonOf(req, env);
      if !Outdated(env.now, AuthDate(SignedParams(req))) {
        assert CheckSigned(req, env) == CheckUser(j);
        CheckUserAccepts(j);
      }
    } else {
      UnsignedRefused(botToken, req, env);
    }
  }

  lemma CheckUserAccepts(parsed: Option<Json>)
    ensures CheckUser(parsed).Accept? <==>
      parsed.Some? && parsed.value.JObject? && parsed.value.user.id.Some? && parsed.value.user.id.value != 0
    ensures CheckUser(parsed).Accept? ==> parsed == Some(JObject(CheckUser(parsed).user))
  {
  }

  lemma UnsignedRefused(botToken: Option<string>, req: Request, env: Env)
    requires !Signed(botToken, req, env)
    ensures Check(botToken, req, env).Refuse?
  {
  }

  /** The table is read only for authentic requests. */
  lemma QueriedOnlyIfAuthentic(users: map<int, UserRow>, botToken: Option<string>, req: Request, env: Env)
    ensures HandleSpec(users, botToken, req, env).queried ==> Check(botToken, req, env).Accept?
  {
  }

  /** A 200 answer happens exactly for requests that pass the checks and whose
    * lookup and write both succeed (a "no row" lookup counting as success); it
    * echoes the user object, and the table then maps that user's id to the
    * inserted or refreshed row, every other row unchanged. */
  lemma SuccessExactly(users: map<int, UserRow>, botToken: Option<string>, req: Request, env: Env)
    ensures var h := HandleSpec(users, botToken, req, env);
      h.response.status == 200 <==>
        Check(botToken, req, env).Accept?
        && (env.lookupFault.None? || env.lookupFault.value.0 == NotFoundCode)
        && env.writeFault.None?
    ensures var h := HandleSpec(users, botToken, req, env);
      h.response.status == 200 ==>
        var u := Check(botToken, req, env).user;
        var id := u.id.value;
        h.response.body == Validated(u)
        && h.users == users[id := (if id in users && env.lookupFault.None?
                                   then RefreshedRow(users[id], u, env.nowIso)
                                   else NewRow(id, u))]
  {
    DecideOutcome(users, Check(botToken, req, env), env);
  }

  /** Every answer other than 200 leaves the table as it was. */
  lemma FailureWritesNothing(users: map<int, UserRow>, botToken: Option<string>, req: Request, env: Env)
    ensures var h := HandleSpec(users, botToken, req, env);
      h.response.status != 200 ==> h.users == users
  {
    DecideOutcome(users, Check(botToken, req, env), env);
  }

  /** A returning user keeps the row's `telegram_id`; only the display fields and
    * `updated_at` change. */
  lemma RefreshKeepsIdentity(row: UserRow, u: UserJson, nowIso: string)
    ensures RefreshedRow(row, u, nowIso).telegramId == row.telegramId
    ensures RefreshedRow(row, u, nowIso).updatedAt == Some(nowIso)
    ensures RefreshedRow(row, u, nowIso).lastName.Some? <==> Truthy(u.lastName)
  {
  }

  /** The freshness window is closed: data exactly one day old is accepted,
    * one second older is refused. */
  lemma FreshnessBoundary(now: int)
    ensures !Outdated(now, Some(now - 86400))
    ensures Outdated(now, Some(now - 86401))
  {
  }

  /** A non-empty `auth_date` parses to `NaN` exactly when, after leading white
    * space, it neither starts with a digit nor with a sign followed by a digit;
    * and `NaN` passes the freshness check, so the window is not enforced for
    * such data. */
  lemma NonNumericAuthDatePasses(now: int, ps: Pairs, s: string)
    requires Get(ps, "auth_date") == Some(s) && s != ""
    ensures var t := TrimStart(s);
      AuthDate(ps) == None
      <==> t == [] || (!IsDigit(t[0]) && !((t[0] == '-' || t[0] == '+') && |t| > 1 && IsDigit(t[1])))
    ensures AuthDate(ps) == None ==> !Outdated(now, AuthDate(ps))
  {
  }

  /** A missing `auth_date` counts as the epoch: stale once a day has passed since 1970. */
  lemma MissingAuthDateIsEpoch(now: int, ps: Pairs)
    requires Get(ps, "auth_date").None?
    ensures AuthDate(ps) == Some(0)
    ensures Outdated(now, AuthDate(ps)) <==> now > 86400
  {
    ParseIntOfIntToString(0);
  }

  // ---------------------------------------------------------------- the endpoint

  /** The deployed function: the bot token it was configured with and the `users` table. */
  class ValidateEndpoint {
    const botToken: Option<string>
    var users: map<int, UserRow>

    constructor(botToken: Option<string>, users: map<int, UserRow>)
      ensures this.botToken == botToken && this.users == users
    {
      this.botToken := botToken;
      this.users := users;
    }

    /** Answers one request; the table changes as `HandleSpec` says. */
    method Handle(req: Request, env: Env) returns (resp: Response)
      modifies this
      ensures resp == HandleSpec(old(users), botToken, req, env).response
      ensures users == HandleSpec(old(users), botToken, req, env).users
    {
      if req.httpMethod != "POST" {
        return Response(405, ErrorBody("Method not allowed"));
      }
      if !Truthy(req.initData) {
        return Response(400, ErrorBody("Missing initData"));
      }
      if !Truthy(botToken) {
        return Response(500, ErrorBody("Bot token not configured"));
      }
      var ps := Parse(req.initData.value);
      var hash := Get(ps, "hash");
      if !Truthy(hash) {
        return Response(400, ErrorBody("Invalid initData: missing hash"));
      }
      var rest := Delete(ps, "hash");
      var dataCheck := Join(Lines(KeySort.SortByKey(rest)), "\n");
      var secretKey := env.crypto.hmacSha256(env.crypto.utf8("WebAppData"), env.crypto.utf8(botToken.value));
      var signature := Hex(env.crypto.hmacSha256(secretKey, env.crypto.utf8(dataCheck)));
      if signature != hash.value {
        return Response(401, ErrorBody("Invalid hash"));
      }
      var authDate := ParseInt(OrElse(Get(rest, "auth_date"), "0"));
      if authDate.Some? && env.now - authDate.value > MaxAgeSeconds {
        return Response(401, ErrorBody("Authentication data is outdated"));
      }
      var parsed := env.parseJson(OrElse(Get(rest, "user"), "{}"));
      if parsed.None? || parsed.value.JNull? {
        return Response(500, ErrorBody("Internal server error"));
      }
      if parsed.value.JOther? || parsed.value.user.id.None? || parsed.value.user.id.value == 0 {
        return Response(400, ErrorBody("Invalid user data"));
      }
      var u := parsed.value.user;
      assert Check(botToken, req, env) == Accept(u);
      resp := Store(u, env);
    }

    /** The lookup, then the insert or update, for a user who passed the checks. */
    method Store(u: UserJson, env: Env) returns (resp: Response)
      requires u.id.Some?
      modifies this
      ensures resp == Upsert(old(users), u.id.value, u, env).response
      ensures users == Upsert(old(users), u.id.value, u, env).users
    {
      var id := u.id.value;
      var existing := LookupUser(users, id, env.lookupFault);
      if existing.Err? && existing.code != NotFoundCode {
        return Response(500, ErrorBody("Database error"));
      }
      if existing.Err? {
        if env.writeFault.Some? {
          return Response(500, ErrorBody("Failed to create user"));
        }
        users := users[id := NewRow(id, u)];
      } else {
        if env.writeFault.Some? {
          return Response(500, ErrorBody("Failed to update user"));
        }
        users := users[id := RefreshedRow(existing.value, u, env.nowIso)];
      }
      return Response(200, Validated(u));
    }
  }
}
