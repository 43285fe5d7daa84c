/**
 * The session store: the only owner of the three persisted keys
 * `token`, `refreshToken` and `user`. The user kept under `user` is
 * always derived from the access token, never taken from the server's
 * reply.
 *
 * Each operation is a method that changes the `Storage` object step by
 * step, as the original does, and is proved equal to a function on the
 * stored map; the properties are stated about those functions.
 */
module AuthService {
  import opened Wrappers
  import opened Jwt
  import opened BrowserStorage
  import Json

  /** The user projection of a token: `{ id, email, role }`. */
  datatype User = User(id: string, email: string, role: string)

  /** The reply of the login endpoint; a field the server left out is `None` (JavaScript `undefined`). */
  datatype AuthResponse = AuthResponse(message: Option<string>, token: Option<string>, refreshToken: Option<string>, user: Option<User>)

  const TokenKey := "token"
  const RefreshTokenKey := "refreshToken"
  const UserKey := "user"
  const SessionKeys: set<string> := {TokenKey, RefreshTokenKey, UserKey}

  /** `a` and `b` agree on `key`: both lack it or both hold the same value. */
  predicate SameAt(a: map<string, string>, b: map<string, string>, key: string)
  {
    (key in a <==> key in b) && (key in a ==> a[key] == b[key])
  }

  /** A value as `setItem` or a template literal writes it: `undefined` becomes the text "undefined". */
  function JsString(v: Option<string>): string
  {
    v.GetOr("undefined")
  }

  /** `JSON.stringify(user)`: the three members in declaration order, each value a JSON string literal. */
  function StringifyUser(u: User): string
  {
    "{\"id\":" + Json.Quote(u.id) + ",\"email\":" + Json.Quote(u.email) + ",\"role\":" + Json.Quote(u.role) + "}"
  }

  /** The value `JSON.parse` gives for the text `StringifyUser(u)`. */
  function UserJson(u: User): Json.Json
  {
    Json.JObject([("id", Json.JString(u.id)), ("email", Json.JString(u.email)), ("role", Json.JString(u.role))])
  }

  /** A JSON string literal at the head of `s`: its value and what follows it. */
  function ParseQuoted(s: string): Option<(string, string)>
  {
    match Json.Expect("\"", s)
    case None => None
    case Some(body) => Json.ParseStringBody(body)
  }

  lemma QuotedReadsBack(v: string, rest: string)
    ensures ParseQuoted(Json.Quote(v) + rest) == Some((v, rest))
  {
    assert Json.Quote(v) + rest == "\"" + (Json.Escape(v) + "\"" + rest);
    Json.ExpectReadsBack("\"", Json.Escape(v) + "\"" + rest);
    Json.QuoteReadsBack(v, rest);
  }

  /** Reads back the layout `StringifyUser` writes. */
  function ParseStoredUser(s: string): Option<User>
  {
    match Json.Expect("{\"id\":", s)
    case None => None
    case Some(s1) =>
      match ParseQuoted(s1)
      case None => None
      case Some((id, s2)) =>
        match Json.Expect(",\"email\":", s2)
        case None => None
        case Some(s3) =>
          match ParseQuoted(s3)
          case None => None
          case Some((email, s4)) =>
            match Json.Expect(",\"role\":", s4)
            case None => None
            case Some(s5) =>
              match ParseQuoted(s5)
              case None => None
              case Some((role, s6)) =>
                if s6 == "}" then Some(User(id, email, role)) else None
  }

  lemma Regroup(a: string, b: string, c: string, d: string, e: string, f: string, g: string)
    ensures a + b + c + d + e + f + g == a + (b + (c + (d + (e + (f + g)))))
  {
  }

  lemma StoredUserReadsBack(u: User)
    ensures ParseStoredUser(StringifyUser(u)) == Some(u)
  {
    var q1, q2, q3 := Json.Quote(u.id), Json.Quote(u.email), Json.Quote(u.role);
    var r3 := q3 + "}";
    var r2 := q2 + (",\"role\":" + r3);
    var r1 := q1 + (",\"email\":" + r2);
    Regroup("{\"id\":", q1, ",\"email\":", q2, ",\"role\":", q3, "}");
    Json.ExpectReadsBack("{\"id\":", r1);
    QuotedReadsBack(u.id, ",\"email\":" + r2);
    Json.ExpectReadsBack(",\"email\":", r2);
    QuotedReadsBack(u.email, ",\"role\":" + r3);
    Json.ExpectReadsBack(",\"role\":", r3);
    QuotedReadsBack(u.role, "}");
  }

  /** The stored text determines the user: two different users are never stored as the same text. */
  lemma StoredUserInjective(a: User, b: User)
    ensures StringifyUser(a) == StringifyUser(b) <==> a == b
  {
    if StringifyUser(a) == StringifyUser(b) {
      StoredUserReadsBack(a);
      StoredUserReadsBack(b);
    }
  }

  /** `getUserFromToken`: `None` exactly when the token does not decode; otherwise the three claims, copied. */
  function GetUserFromToken(decode: Decoder, token: string): (r: Option<User>)
    ensures r.None? <==> DecodeToken(decode, token).None?
    ensures r.Some? ==> var c := DecodeToken(decode, token).value;
      r.value.id == c.userId && r.value.email == c.email && r.value.role == c.role
  {
    match DecodeToken(decode, token)
    case None => None
    case Some(c) => Some(User(c.userId, c.email, c.role))
  }

  /** The user a reply's token yields; an absent token (`undefined`) decodes to nothing. */
  function TokenUser(decode: Decoder, token: Option<string>): Option<User>
  {
    match token
    case None => None
    case Some(t) => GetUserFromToken(decode, t)
  }

  /** The three session keys removed; every other key as it was. */
  function ClearSession(items: map<string, string>): (r: map<string, string>)
    ensures r.Keys == items.Keys - SessionKeys
    ensures forall k :: k !in SessionKeys ==> SameAt(items, r, k)
  {
    items - SessionKeys
  }

  /**
   * The store after `storeAuthData(data)`: both tokens written as the reply
   * gives them; `user` rewritten when the token decodes and otherwise left
   * as it was; nothing else touched.
   */
  function AfterStoreAuthData(items: map<string, string>, decode: Decoder, data: AuthResponse): (r: map<string, string>)
    ensures TokenKey in r && r[TokenKey] == JsString(data.token)
    ensures RefreshTokenKey in r && r[RefreshTokenKey] == JsString(data.refreshToken)
    ensures TokenUser(decode, data.token).Some? ==>
      UserKey in r && r[UserKey] == StringifyUser(TokenUser(decode, data.token).value)
    ensures TokenUser(decode, data.token).None? ==> SameAt(items, r, UserKey)
    ensures forall k :: k !in SessionKeys ==> SameAt(items, r, k)
  {
    var written := items[TokenKey := JsString(data.token)][RefreshTokenKey := JsString(data.refreshToken)];
    match TokenUser(decode, data.token)
    case Some(u) => written[UserKey := StringifyUser(u)]
    case None => written
  }

  /** `storeAuthData`. */
  method StoreAuthData(store: Storage, decode: Decoder, data: AuthResponse)
    modifies store
    ensures store.items == AfterStoreAuthData(old(store.items), decode, data)
  {
    store.SetItem(TokenKey, JsString(data.token));
    store.SetItem(RefreshTokenKey, JsString(data.refreshToken));
    var user := TokenUser(decode, data.token);
    if user.Some? {
      store.SetItem(UserKey, StringifyUser(user.value));
    }
  }

  /** The store after `storeAuthData` does not depend on the `user` the server sent. */
  lemma StoreAuthDataIgnoresServerUser(items: map<string, string>, decode: Decoder, data: AuthResponse, other: Option<User>)
    ensures AfterStoreAuthData(items, decode, data) == AfterStoreAuthData(items, decode, data.(user := other))
  {
  }

  /** What `getUser` returns and the store it leaves behind. */
  datatype UserRead = UserRead(user: Option<User>, items: map<string, string>)

  /** The stored token is missing, empty or expired at `nowMs`. */
  predicate NoLiveToken(items: map<string, string>, decode: Decoder, nowMs: int)
  {
    TokenKey !in items || items[TokenKey] == "" || IsTokenExpired(decode, items[TokenKey], nowMs)
  }

  /**
   * `getUser`: without a live token all three keys are removed and there is
   * no user; with one, the user is re-derived from the token and re-stored.
   */
  function GetUserOutcome(items: map<string, string>, decode: Decoder, nowMs: int): (r: UserRead)
    ensures NoLiveToken(items, decode, nowMs) ==> r.user.None? && r.items == ClearSession(items)
    ensures !NoLiveToken(items, decode, nowMs) ==> r.user == GetUserFromToken(decode, items[TokenKey])
    ensures r.user.Some? ==> r.items == items[UserKey := StringifyUser(r.user.value)]
  {
    if NoLiveToken(items, decode, nowMs) then UserRead(None, ClearSession(items))
    else
      match GetUserFromToken(decode, items[TokenKey])
      case Some(u) => UserRead(Some(u), items[UserKey := StringifyUser(u)])
      case None => UserRead(None, items)
  }

  /** `getUser`. */
  method GetUser(store: Storage, decode: Decoder, nowMs: int) returns (user: Option<User>)
    modifies store
    ensures UserRead(user, store.items) == GetUserOutcome(old(store.items), decode, nowMs)
  {
    var token := store.GetItem(TokenKey);
    if token.None? || token.value == "" || IsTokenExpired(decode, token.value, nowMs) {
      store.RemoveItem(UserKey);
      store.RemoveItem(TokenKey);
      store.RemoveItem(RefreshTokenKey);
      return None;
    }
    var fromToken := GetUserFromToken(decode, token.value);
    if fromToken.Some? {
      store.SetItem(UserKey, StringifyUser(fromToken.value));
      return fromToken;
    }
    return None;
  }

  /**
   * `getUser` never returns no user while leaving a session behind: the
   * token that passed the expiry check decodes with the same decoder, so
   * the branch that returns `null` without clearing is dead.
   */
  lemma GetUserNullClears(items: map<string, string>, decode: Decoder, nowMs: int)
    ensures GetUserOutcome(items, decode, nowMs).user.None? ==>
      GetUserOutcome(items, decode, nowMs).items.Keys !! SessionKeys
  {
    if !NoLiveToken(items, decode, nowMs) {
      NotExpiredDecodes(decode, items[TokenKey], nowMs);
    }
  }

  /**
   * Storing a session whose token is live, then reading the user, gives the
   * user of that token, whatever was cached before and whatever user the
   * server sent.
   */
  lemma GetUserAfterStore(items: map<string, string>, decode: Decoder, data: AuthResponse, token: string, nowMs: int)
    requires data.token == Some(token) && token != ""
    requires !IsTokenExpired(decode, token, nowMs)
    ensures GetUserOutcome(AfterStoreAuthData(items, decode, data), decode, nowMs).user == GetUserFromToken(decode, token)
    ensures GetUserFromToken(decode, token).Some?
  {
    NotExpiredDecodes(decode, token, nowMs);
  }

  /** `isTokenValid`: a token is stored, is not empty and has not expired. */
  function IsTokenValid(store: Storage, decode: Decoder, nowMs: int): (valid: bool)
    reads store
    ensures valid <==> !NoLiveToken(store.items, decode, nowMs)
  {
    var token := store.GetItem(TokenKey);
    token.Some? && token.value != "" && !IsTokenExpired(decode, token.value, nowMs)
  }

  /** `isTokenValid` and `getUser` agree: a valid token always yields a user. */
  lemma ValidTokenYieldsUser(items: map<string, string>, decode: Decoder, nowMs: int)
    requires !NoLiveToken(items, decode, nowMs)
    ensures GetUserOutcome(items, decode, nowMs).user.Some?
  {
    NotExpiredDecodes(decode, items[TokenKey], nowMs);
  }

  /** `getToken`: the raw stored token, `None` when there is none. */
  function GetToken(store: Storage): (r: Option<string>)
    reads store
    ensures r.Some? <==> TokenKey in store.items
    ensures r.Some? ==> r.value == store.items[TokenKey]
  {
    store.GetItem(TokenKey)
  }

  /** `logout`: the three session keys go, every other key stays. */
  method Logout(store: Storage)
    modifies store
    ensures store.items == ClearSession(old(store.items))
  {
    store.RemoveItem(TokenKey);
    store.RemoveItem(RefreshTokenKey);
    store.RemoveItem(UserKey);
  }
}
