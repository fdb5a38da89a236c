/**
 * The session record of the client (`this.state`) as a map from the
 * service's own key names to values, and the pure logic over it: whether the
 * token is valid, which step `_getAuth` and `refresh` take, how a token
 * response and a revoke response change the record, how the record is
 * loaded from and written to the session file, and how the options are set
 * up. `now` is the current time in milliseconds, passed in.
 */
module Session {
  import opened Wrappers
  import opened Values

  type State = map<string, Value>

  const AccessToken := "access_token"
  const RefreshToken := "refresh_token"
  const Expires := "expires"
  const ExpiresIn := "expires_in"
  const Id := "id"
  const Plan := "plan"
  const Provider := "provider"
  const TokenType := "token_type"

  /** The keys logout deletes before it merges the revoke response. */
  const TokenKeys: set<string> := {AccessToken, Expires, Plan, Provider, RefreshToken, TokenType}

  /** `state.k != null`: the key is there and is not null. */
  predicate Present(state: State, k: string) {
    k in state && state[k] != Plain(Null)
  }

  /** `m.k != null` for JSON data. */
  predicate NonNull(m: map<string, Json>, k: string) {
    k in m && m[k] != Null
  }

  function Get(state: State, k: string): Option<Value> {
    if k in state then Some(state[k]) else None
  }

  /** Only `expires` ever holds a Date, and a Date holds a time value in range. */
  predicate WellFormed(state: State) {
    && (forall k :: k in state && k != Expires ==> state[k].Plain?)
    && (Expires in state && state[Expires].Date? ==> -MaxTime <= state[Expires].ms <= MaxTime)
  }

  /** JSON data as held values. */
  function PlainFields(m: map<string, Json>): (r: State)
    ensures r.Keys == m.Keys
    ensures forall k :: k in m ==> r[k] == Plain(m[k])
  {
    map k | k in m :: Plain(m[k])
  }

  /** `utils.extend(a, b)`, taken to be a shallow merge in which the keys of b win. */
  function Extend<V>(a: map<string, V>, b: map<string, V>): (r: map<string, V>)
    ensures r.Keys == a.Keys + b.Keys
    ensures forall k :: k in b ==> r[k] == b[k]
    ensures forall k :: k in a && k !in b ==> r[k] == a[k]
  {
    a + b
  }

  // ---------------------------------------------------------------- options

  const ClientId := "client_id"
  const ClientSecret := "client_secret"
  const ConfigFile := "config_file"
  const Slop := "slop"

  /** The defaults the constructor starts from; htmlFile is the page shipped beside the library. */
  function Defaults(htmlFile: string): map<string, Json> {
    map[
      "port" := Num(0),
      "base" := Str("http://cloud.feedly.com"),
      ConfigFile := Str("~/.feedly"),
      "html_file" := Str(htmlFile),
      "html_text" := Str("No HTML found"),
      Slop := Num(3600000),
      ClientId := Null,
      ClientSecret := Null
    ]
  }

  const MissingCredentials := "client_id and client_secret required"

  /** The options of a new client: the caller's over the defaults; both client credentials are required. */
  function Configure(user: map<string, Json>, htmlFile: string): (r: Result<map<string, Json>, string>)
    ensures r.Success? <==> NonNull(user, ClientId) && NonNull(user, ClientSecret)
    ensures r.Failure? ==> r.error == MissingCredentials
    ensures r.Success? ==> r.value.Keys == Defaults(htmlFile).Keys + user.Keys
    ensures r.Success? ==> forall k :: k in user ==> r.value[k] == user[k]
    ensures r.Success? ==> forall k :: k in Defaults(htmlFile) && k !in user ==> r.value[k] == Defaults(htmlFile)[k]
  {
    var merged := Extend(Defaults(htmlFile), user);
    if !NonNull(merged, ClientId) || !NonNull(merged, ClientSecret) then Failure(MissingCredentials)
    else Success(merged)
  }

  /** The slop as a number (None is NaN, against which every comparison is false). */
  function SlopOf(options: map<string, Json>): Option<int> {
    if Slop in options then ToNumber(options[Slop]) else None
  }

  lemma DefaultSlop(user: map<string, Json>, htmlFile: string)
    requires Configure(user, htmlFile).Success? && Slop !in user
    ensures SlopOf(Configure(user, htmlFile).value) == Some(3600000)
  {
  }

  // ---------------------------------------------------------- token decision

  /** The numeric value of `expires`, as it takes part in a comparison with a Date. */
  function ExpiresAt(state: State): Option<int> {
    if Expires in state then TimeValue(state[Expires]) else None
  }

  /** `_validToken`: both tokens and the expiry are there, and the expiry lies in the future. */
  predicate ValidToken(state: State, now: int)
    ensures !Present(state, AccessToken) || !Present(state, RefreshToken) ==> !ValidToken(state, now)
    ensures Expires !in state || state[Expires] == InvalidDate ==> !ValidToken(state, now)
    ensures Present(state, AccessToken) && Present(state, RefreshToken) && Expires in state && state[Expires].Date? ==>
      (ValidToken(state, now) <==> state[Expires].ms > now)
  {
    && Present(state, AccessToken)
    && Present(state, RefreshToken)
    && Present(state, Expires)
    && ExpiresAt(state).Some?
    && ExpiresAt(state).value > now
  }

  datatype AuthStep = Authorize | Refresh | UseToken(token: Value)

  /** `_getAuth`: authorize without a valid token, refresh within slop of the expiry, otherwise reuse the token. */
  function AuthChoice(state: State, now: int, slop: Option<int>): (r: AuthStep)
    ensures r == Authorize <==> !ValidToken(state, now)
    ensures r == Refresh <==> ValidToken(state, now) && slop.Some? && ExpiresAt(state).value - now < slop.value
    ensures r.UseToken? <==> ValidToken(state, now) && !(slop.Some? && ExpiresAt(state).value - now < slop.value)
    ensures r.UseToken? ==> AccessToken in state && r.token == state[AccessToken] && r.token != Plain(Null)
  {
    if !ValidToken(state, now) then Authorize
    else if slop.Some? && ExpiresAt(state).value - now < slop.value then Refresh
    else UseToken(state[AccessToken])
  }

  /** The public `refresh`: refresh while the token is valid, otherwise authorize. */
  function RefreshChoice(state: State, now: int): (r: AuthStep)
    ensures r == Refresh <==> ValidToken(state, now)
    ensures r == Authorize <==> !ValidToken(state, now)
  {
    if ValidToken(state, now) then Refresh else Authorize
  }

  /** An explicit refresh authorizes exactly when `_getAuth` would. */
  lemma RefreshChoiceAgrees(state: State, now: int, slop: Option<int>)
    ensures RefreshChoice(state, now) == Authorize <==> AuthChoice(state, now, slop) == Authorize
  {
  }

  /** A token that expires more than `slop` from now is handed out as it is. */
  lemma FreshTokenIsReused(state: State, now: int, slop: int, expiry: int)
    requires Present(state, AccessToken) && Present(state, RefreshToken)
    requires Expires in state && state[Expires] == Date(expiry)
    requires expiry > now && expiry - now >= slop
    ensures AuthChoice(state, now, Some(slop)) == UseToken(state[AccessToken])
  {
  }

  /** Once the choice is to authorize, it stays so as time passes, until the record changes. */
  lemma AuthorizeStays(state: State, now: int, later: int, slop: Option<int>)
    requires now <= later
    requires AuthChoice(state, now, slop) == Authorize
    ensures AuthChoice(state, later, slop) == Authorize
  {
  }

  // ------------------------------------------------------- token responses

  /** `new Date(now + body.expires_in * 1000)`; a missing or non-numeric lifetime gives an invalid date. */
  function ExpiryAfter(body: map<string, Json>, now: int): (r: Value)
    ensures r.Date? ==> -MaxTime <= r.ms <= MaxTime
    ensures ExpiresIn !in body || ToNumber(body[ExpiresIn]).None? ==> r == InvalidDate
    ensures ExpiresIn in body && ToNumber(body[ExpiresIn]).Some? ==>
      var t := now + ToNumber(body[ExpiresIn]).value * 1000;
      (r.Date? <==> -MaxTime <= t <= MaxTime) && (r.Date? ==> r.ms == t)
  {
    if ExpiresIn !in body then InvalidDate
    else match ToNumber(body[ExpiresIn])
      case None => InvalidDate
      case Some(seconds) => TimeClip(now + seconds * 1000)
  }

  /** The record after a code exchange or a refresh: the body merged in, then `expires` recomputed. */
  function TokenState(state: State, body: map<string, Json>, now: int): (r: State)
    ensures r.Keys == state.Keys + body.Keys + {Expires}
    ensures forall k :: k in body && k != Expires ==> r[k] == Plain(body[k])
    ensures forall k :: k in state && k !in body && k != Expires ==> r[k] == state[k]
    ensures r[Expires] == ExpiryAfter(body, now)
    ensures WellFormed(state) ==> WellFormed(r)
  {
    Extend(state, PlainFields(body))[Expires := ExpiryAfter(body, now)]
  }

  /**
   * A successful response carrying an access token, a refresh token (or
   * keeping the one held) and a lifetime of at least the slop leaves a record
   * whose token `_getAuth` hands out without further exchange.
   */
  lemma TokenResponseIsFresh(state: State, body: map<string, Json>, now: int, slop: int, seconds: int)
    requires NonNull(body, AccessToken)
    requires NonNull(body, RefreshToken) || (RefreshToken !in body && Present(state, RefreshToken))
    requires ExpiresIn in body && body[ExpiresIn] == Num(seconds)
    requires seconds * 1000 > 0 && seconds * 1000 >= slop
    requires now + seconds * 1000 <= MaxTime && -MaxTime <= now
    ensures AuthChoice(TokenState(state, body, now), now, Some(slop)) == UseToken(Plain(body[AccessToken]))
  {
  }

  // ---------------------------------------------------------------- logout

  /** The record after logout: the token keys deleted, then the revoke response merged in. */
  function LogoutState(state: State, body: map<string, Json>): (r: State)
    ensures r.Keys == (state.Keys - TokenKeys) + body.Keys
    ensures forall k :: k in TokenKeys ==> (k in r <==> k in body)
    ensures forall k :: k in body ==> r[k] == Plain(body[k])
    ensures forall k :: k in state && k !in TokenKeys && k !in body ==> r[k] == state[k]
    ensures WellFormed(state) ==> WellFormed(r)
  {
    Extend(state - TokenKeys, PlainFields(body))
  }

  /** After a logout whose response brings no access token, the next call must authorize. */
  lemma LogoutForcesAuthorize(state: State, body: map<string, Json>, now: int, slop: Option<int>)
    requires !NonNull(body, AccessToken)
    ensures AuthChoice(LogoutState(state, body), now, slop) == Authorize
  {
  }

  // ------------------------------------------------------- the session file

  /** `new Date(j)` for data read back from JSON; parseDate stands for `Date.parse`. */
  function DateOf(j: Json, parseDate: string -> Option<int>): (r: Value)
    ensures !r.Plain?
    ensures r.Date? ==> -MaxTime <= r.ms <= MaxTime
    ensures j.Num? ==> r == TimeClip(j.n)
    ensures j.Str? && parseDate(j.s).Some? ==> r == TimeClip(parseDate(j.s).value)
    ensures j.Str? && parseDate(j.s).None? ==> r == InvalidDate
  {
    match j
    case Num(n) => TimeClip(n)
    case Bool(b) => Date(if b then 1 else 0)
    case Null => Date(0)
    case _ =>
      match parseDate(ToText(j))
      case Some(ms) => TimeClip(ms)
      case None => InvalidDate
  }

  /** The step of `_loadConfig` from parsed file contents to the record; None is a missing or unparsable file. */
  function Loaded(parsed: Option<map<string, Json>>, parseDate: string -> Option<int>): (r: State)
    ensures WellFormed(r)
    ensures parsed.None? ==> r == map[]
    ensures parsed.Some? ==> r.Keys == parsed.value.Keys
    ensures parsed.Some? ==> forall k :: k in parsed.value && k != Expires ==> r[k] == Plain(parsed.value[k])
    ensures parsed.Some? && Expires in parsed.value && parsed.value[Expires] == Null ==> r[Expires] == Plain(Null)
    ensures parsed.Some? && NonNull(parsed.value, Expires) ==> r[Expires] == DateOf(parsed.value[Expires], parseDate)
  {
    match parsed
    case None => map[]
    case Some(s) =>
      if NonNull(s, Expires) then PlainFields(s)[Expires := DateOf(s[Expires], parseDate)]
      else PlainFields(s)
  }

  /** How `JSON.stringify` writes a held value; formatDate stands for `Date.prototype.toISOString`. */
  function Stored(v: Value, formatDate: int -> string): Json {
    match v
    case Plain(j) => j
    case Date(ms) => Str(formatDate(ms))
    case InvalidDate => Null
  }

  /** The contents `_save` writes. */
  function Serialized(state: State, formatDate: int -> string): (r: map<string, Json>)
    ensures r.Keys == state.Keys
    ensures forall k :: k in state && state[k].Plain? ==> r[k] == state[k].json
    ensures forall k :: k in state && state[k].Date? ==> r[k] == Str(formatDate(state[k].ms))
    ensures forall k :: k in state && state[k] == InvalidDate ==> r[k] == Null
  {
    map k | k in state :: Stored(state[k], formatDate)
  }

  /**
   * Saving a well-formed record and loading it back gives the same record,
   * with `expires` a Date again, provided the date format reads back.
   */
  lemma LoadAfterSave(state: State, formatDate: int -> string, parseDate: string -> Option<int>)
    requires WellFormed(state)
    requires Expires in state ==> state[Expires].Date? || state[Expires] == Plain(Null)
    requires forall ms :: -MaxTime <= ms <= MaxTime ==> parseDate(formatDate(ms)) == Some(ms)
    ensures Loaded(Some(Serialized(state, formatDate)), parseDate) == state
  {
  }

  /**
   * An invalid `expires` (a token answer without `expires_in`) is saved as
   * null and so comes back as null; either way the next call authorizes.
   */
  lemma SaveLosesInvalidDate(state: State, formatDate: int -> string, parseDate: string -> Option<int>, now: int, slop: Option<int>)
    requires WellFormed(state)
    requires Expires in state && state[Expires] == InvalidDate
    requires forall ms :: -MaxTime <= ms <= MaxTime ==> parseDate(formatDate(ms)) == Some(ms)
    ensures Loaded(Some(Serialized(state, formatDate)), parseDate) == state[Expires := Plain(Null)]
    ensures AuthChoice(state[Expires := Plain(Null)], now, slop) == AuthChoice(state, now, slop) == Authorize
  {
    var nulled := state[Expires := Plain(Null)];
    assert Serialized(nulled, formatDate) == Serialized(state, formatDate);
    LoadAfterSave(nulled, formatDate, parseDate);
  }

  /** `state.id` as it reads when concatenated into a path; a missing id reads "undefined". */
  function UserId(state: State): (r: string)
    requires WellFormed(state)
    ensures Id !in state ==> r == "undefined"
    ensures Id in state && state[Id] == Plain(Null) ==> r == "null"
    ensures Id in state && state[Id].json.Str? ==> r == state[Id].json.s
  {
    if Id in state then ToText(state[Id].json) else "undefined"
  }
}
