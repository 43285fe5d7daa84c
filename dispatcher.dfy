/**
 * The request dispatcher: a request side that attaches the bearer token,
 * and a response side that, on a 401, refreshes the token pair once per
 * request and resubmits the request.
 *
 * The server is a scripted oracle: each call takes the next reply from a
 * script and records the request it was given; an exhausted script is a
 * call that never settles. Recursion through the refresh and the retry is
 * bounded by the script's length.
 *
 * `Send` and `OnError` are the specification, on values; `Client.Request`
 * and `Client.HandleError` are the imperative handlers that mutate the
 * request object, the store and the window location, proved equal to them.
 * `guarded` selects the response handler: `false` is the handler as
 * written, `true` adds the check that a failing refresh request does not
 * start another refresh.
 */
module Dispatcher {
  import opened Wrappers
  import opened Text
  import Json
  import opened BrowserStorage
  import opened AuthService

  /** The parts of a request object the interceptors touch. `retry` is the `_retry` mark. */
  datatype Config = Config(verb: string, url: string, authorization: Option<string>, retry: bool, data: string)

  /** One scripted server reply: a body, or a failure with an HTTP status (`None`: no response at all). */
  datatype Reply = Ok(data: AuthResponse) | Fail(status: Option<int>)

  /** A rejected request: the status of its response, if any, and its request object. */
  datatype AxiosError = AxiosError(status: Option<int>, config: Config)

  datatype Outcome = Resolved(data: AuthResponse) | Rejected(error: AxiosError) | Pending

  /** Everything a request can observe or change besides its own request object. */
  datatype World = World(items: map<string, string>, script: seq<Reply>, log: seq<Config>, redirect: Option<string>)

  /** The world after a request, the final state of its request object, and how it settled. */
  datatype Step = Step(world: World, config: Config, outcome: Outcome)

  const LoginPath := "/auth/login"
  const RefreshPath := "/auth/refresh"
  const LoginPage := "/login"

  /** The request side leaves these URLs alone. */
  predicate SkipsToken(url: string)
  {
    Includes(url, LoginPath) || Includes(url, RefreshPath)
  }

  function Bearer(token: string): string
  {
    "Bearer " + token
  }

  /** A stored value is truthy when present and not empty. */
  function Truthy(items: map<string, string>, key: string): Option<string>
  {
    if key in items && items[key] != "" then Some(items[key]) else None
  }

  /** The request interceptor. */
  function PrepareRequest(items: map<string, string>, c: Config): (r: Config)
    ensures r.(authorization := c.authorization) == c
    ensures SkipsToken(c.url) || Truthy(items, TokenKey).None? ==> r == c
    ensures !SkipsToken(c.url) && Truthy(items, TokenKey).Some? ==>
      r.authorization == Some(Bearer(items[TokenKey]))
  {
    if SkipsToken(c.url) then c
    else
      match Truthy(items, TokenKey)
      case Some(token) => c.(authorization := Some(Bearer(token)))
      case None => c
  }

  lemma PrepareRequestIdempotent(items: map<string, string>, c: Config)
    ensures PrepareRequest(items, PrepareRequest(items, c)) == PrepareRequest(items, c)
  {
  }

  /** The JSON body `{ refreshToken }`. */
  function RefreshData(refreshToken: string): string
  {
    "{\"refreshToken\":" + Json.Quote(refreshToken) + "}"
  }

  /** The request object of the refresh POST: new, unmarked, with no authorization header. */
  function RefreshConfig(refreshToken: string): Config
  {
    Config("post", RefreshPath, None, false, RefreshData(refreshToken))
  }

  /** The response handler takes the refresh path for this error. */
  predicate EntersRefresh(guarded: bool, e: AxiosError)
  {
    e.status == Some(401) && !e.config.retry && !(guarded && Includes(e.config.url, RefreshPath))
  }

  /** The store after a successful refresh: both new tokens written as the reply gives them. */
  function StoreRefreshed(items: map<string, string>, data: AuthResponse): map<string, string>
  {
    items[TokenKey := JsString(data.token)][RefreshTokenKey := JsString(data.refreshToken)]
  }

  /** One request through both interceptors. */
  function Send(guarded: bool, w: World, c: Config): (r: Step)
    decreases |w.script|, 1
    ensures |r.world.script| <= |w.script|
  {
    var sent := PrepareRequest(w.items, c);
    if w.script == [] then Step(w, sent, Pending)
    else
      var w1 := w.(script := w.script[1..], log := w.log + [sent]);
      match w.script[0]
      case Ok(data) => Step(w1, sent, Resolved(data))
      case Fail(status) => OnError(guarded, w1, AxiosError(status, sent))
  }

  /** The response interceptor's error handler for `e`, whose request object is `e.config`. */
  function OnError(guarded: bool, w: World, e: AxiosError): (r: Step)
    decreases |w.script|, 3
    ensures |r.world.script| <= |w.script|
  {
    if !EntersRefresh(guarded, e) then Step(w, e.config, Rejected(e))
    else
      var marked := e.config.(retry := true);
      match Truthy(w.items, RefreshTokenKey)
      case None => Step(w, marked, Rejected(e.(config := marked)))
      case Some(refreshToken) => RefreshAndRetry(guarded, w, marked, refreshToken)
  }

  /**
   * The refresh path for the marked request object `marked`: post the
   * refresh, then either resubmit `marked` with the new token or, when the
   * refresh is rejected, clear the session and go to the login page.
   */
  function RefreshAndRetry(guarded: bool, w: World, marked: Config, refreshToken: string): (r: Step)
    decreases |w.script|, 2
    ensures |r.world.script| <= |w.script|
  {
    var refresh := Send(guarded, w, RefreshConfig(refreshToken));
    var w1 := refresh.world;
    match refresh.outcome
    case Pending => Step(w1, marked, Pending)
    case Rejected(refreshError) =>
      Step(w1.(items := ClearSession(w1.items), redirect := Some(LoginPage)), marked, Rejected(refreshError))
    case Resolved(data) =>
      Send(guarded, w1.(items := StoreRefreshed(w1.items, data)), marked.(authorization := Some(Bearer(JsString(data.token)))))
  }

  /** A successful response passes through unchanged; the store is untouched and the server saw one call. */
  lemma SuccessPassesThrough(guarded: bool, w: World, c: Config)
    requires w.script != [] && w.script[0].Ok?
    ensures Send(guarded, w, c).outcome == Resolved(w.script[0].data)
    ensures Send(guarded, w, c).world == w.(script := w.script[1..], log := w.log + [PrepareRequest(w.items, c)])
  {
  }

  /**
   * A failure that is not a 401, or a 401 on a request already marked, is
   * rejected with the original error; the store and the location are
   * untouched and there is no further call.
   */
  lemma OtherFailureRejected(guarded: bool, w: World, c: Config)
    requires w.script != [] && w.script[0].Fail?
    requires w.script[0].status != Some(401) || c.retry
    ensures Send(guarded, w, c).outcome == Rejected(AxiosError(w.script[0].status, PrepareRequest(w.items, c)))
    ensures Send(guarded, w, c).world == w.(script := w.script[1..], log := w.log + [PrepareRequest(w.items, c)])
  {
  }

  /**
   * A request already marked is sent at most once and never refreshes: its
   * outcome is its own reply, and the store is untouched.
   */
  lemma MarkedRequestIsFinal(guarded: bool, w: World, c: Config)
    requires c.retry
    ensures Send(guarded, w, c).world.items == w.items
    ensures Send(guarded, w, c).world.redirect == w.redirect
    ensures |Send(guarded, w, c).world.log| <= |w.log| + 1
    ensures Send(guarded, w, c).outcome.Rejected? ==> Send(guarded, w, c).outcome.error.config.retry
  {
  }

  /**
   * A 401 with no stored refresh token makes no refresh call and rejects
   * the original error, now marked; the session is not cleared.
   */
  lemma UnauthorizedWithoutRefreshToken(guarded: bool, w: World, c: Config)
    requires w.script != [] && w.script[0] == Fail(Some(401)) && !c.retry
    requires !(guarded && Includes(c.url, RefreshPath))
    requires Truthy(w.items, RefreshTokenKey).None?
    ensures var sent := PrepareRequest(w.items, c);
      Send(guarded, w, c) == Step(w.(script := w.script[1..], log := w.log + [sent]), sent.(retry := true),
                                  Rejected(AxiosError(Some(401), sent.(retry := true))))
  {
  }

  /**
   * A 401 followed by a successful refresh: the refresh POST carries the
   * stored refresh token, both new tokens are stored, and the original
   * request is resubmitted once, marked, with `Bearer` and the new token;
   * what that resubmission gives is the result.
   */
  lemma RefreshThenRetry(guarded: bool, w: World, c: Config, data: AuthResponse)
    requires |w.script| >= 2 && w.script[0] == Fail(Some(401)) && w.script[1] == Ok(data) && !c.retry
    requires !(guarded && Includes(c.url, RefreshPath))
    requires Truthy(w.items, RefreshTokenKey).Some?
    ensures var sent := PrepareRequest(w.items, c);
      var refreshed := w.(items := StoreRefreshed(w.items, data), script := w.script[2..],
                          log := w.log + [sent, RefreshConfig(w.items[RefreshTokenKey])]);
      Send(guarded, w, c) == Send(guarded, refreshed, sent.(retry := true, authorization := Some(Bearer(JsString(data.token)))))
  {
    var sent := PrepareRequest(w.items, c);
    var rc := RefreshConfig(w.items[RefreshTokenKey]);
    assert Includes(rc.url, RefreshPath) by { IncludesTrivial(RefreshPath); }
    var w1 := w.(script := w.script[1..], log := w.log + [sent]);
    assert Send(guarded, w, c) == RefreshAndRetry(guarded, w1, sent.(retry := true), w.items[RefreshTokenKey]);
    assert Send(guarded, w1, rc) == Step(w1.(script := w.script[2..], log := w.log + [sent, rc]), rc, Resolved(data));
  }

  /** The resubmitted request: sent with the new token and not refreshed again. */
  lemma RetryCarriesNewToken(guarded: bool, w: World, c: Config, data: AuthResponse)
    requires w.script != [] && c.retry && w.items == StoreRefreshed(w.items, data)
    requires c.authorization == Some(Bearer(JsString(data.token)))
    ensures Send(guarded, w, c).world.log == w.log + [c]
  {
  }

  /**
   * A 401 whose refresh POST fails with anything but a 401: the session is
   * cleared, the location goes to the login page, the refresh error is the
   * result and the original request is not resubmitted.
   */
  lemma RefreshFailureClearsSession(guarded: bool, w: World, c: Config, status: Option<int>)
    requires |w.script| >= 2 && w.script[0] == Fail(Some(401)) && w.script[1] == Fail(status) && !c.retry
    requires status != Some(401)
    requires !(guarded && Includes(c.url, RefreshPath))
    requires Truthy(w.items, RefreshTokenKey).Some?
    ensures var sent := PrepareRequest(w.items, c);
      var rc := RefreshConfig(w.items[RefreshTokenKey]);
      Send(guarded, w, c) == Step(w.(items := ClearSession(w.items), script := w.script[2..],
                                     log := w.log + [sent, rc], redirect := Some(LoginPage)),
                                  sent.(retry := true), Rejected(AxiosError(status, rc)))
  {
    var sent := PrepareRequest(w.items, c);
    var rc := RefreshConfig(w.items[RefreshTokenKey]);
    assert Includes(rc.url, RefreshPath) by { IncludesTrivial(RefreshPath); }
    var w1 := w.(script := w.script[1..], log := w.log + [sent]);
    assert Send(guarded, w, c) == RefreshAndRetry(guarded, w1, sent.(retry := true), w.items[RefreshTokenKey]);
    assert Send(guarded, w1, rc) == Step(w1.(script := w.script[2..], log := w.log + [sent, rc]), rc, Rejected(AxiosError(status, rc)));
  }

  /** A server that answers every call with 401. */
  function Unauthorized(n: nat): (s: seq<Reply>)
    ensures |s| == n && forall i :: 0 <= i < n ==> s[i] == Fail(Some(401))
  {
    seq(n, _ => Fail(Some(401)))
  }

  /**
   * As written, a 401 on a refresh POST starts another refresh POST. With a
   * refresh token stored and a server answering only 401, the handler
   * keeps posting refreshes until the script runs out: every one of the `n`
   * replies is consumed by a refresh POST and the request never settles.
   */
  lemma {:induction false} RefreshLoopsOnUnauthorized(w: World, e: AxiosError, refreshToken: string, n: nat)
    requires e.status == Some(401) && !e.config.retry
    requires Truthy(w.items, RefreshTokenKey) == Some(refreshToken)
    requires w.script == Unauthorized(n)
    ensures OnError(false, w, e).outcome == Pending
    ensures OnError(false, w, e).world == w.(script := [], log := w.log + seq(n, _ => RefreshConfig(refreshToken)))
    decreases n
  {
    var rc := RefreshConfig(refreshToken);
    assert Includes(rc.url, RefreshPath) by { IncludesTrivial(RefreshPath); }
    assert OnError(false, w, e) == RefreshAndRetry(false, w, e.config.(retry := true), refreshToken);
    if n == 0 {
      assert Send(false, w, rc) == Step(w, rc, Pending);
      assert w.log + seq(0, _ => rc) == w.log;
    } else {
      var w1 := w.(script := w.script[1..], log := w.log + [rc]);
      assert w1.script == Unauthorized(n - 1);
      assert Send(false, w, rc) == OnError(false, w1, AxiosError(Some(401), rc));
      RefreshLoopsOnUnauthorized(w1, AxiosError(Some(401), rc), refreshToken, n - 1);
      assert w.log + [rc] + seq(n - 1, _ => rc) == w.log + seq(n, _ => rc);
    }
  }

  /**
   * As written, any request that meets a 401 while a refresh token is
   * stored, against a server that answers only 401, never settles: the
   * server receives all `n` calls, however large `n` is.
   */
  lemma AsWrittenNeverSettles(w: World, c: Config, n: nat)
    requires n >= 1 && w.script == Unauthorized(n) && !c.retry
    requires Truthy(w.items, RefreshTokenKey).Some?
    ensures Send(false, w, c).outcome == Pending
    ensures |Send(false, w, c).world.log| == |w.log| + n
    ensures Send(false, w, c).world.items == w.items
  {
    var sent := PrepareRequest(w.items, c);
    var w1 := w.(script := w.script[1..], log := w.log + [sent]);
    assert w1.script == Unauthorized(n - 1);
    RefreshLoopsOnUnauthorized(w1, AxiosError(Some(401), sent), w.items[RefreshTokenKey], n - 1);
  }

  /**
   * With the guard, the same server makes the request settle after two
   * calls: the refresh POST's 401 is rejected, the session is cleared and
   * the location goes to the login page.
   */
  lemma GuardedSettles(w: World, c: Config, n: nat)
    requires n >= 2 && w.script == Unauthorized(n) && !c.retry
    requires !Includes(c.url, RefreshPath)
    requires Truthy(w.items, RefreshTokenKey).Some?
    ensures Send(true, w, c).outcome == Rejected(AxiosError(Some(401), RefreshConfig(w.items[RefreshTokenKey])))
    ensures |Send(true, w, c).world.log| == |w.log| + 2
    ensures Send(true, w, c).world.items == ClearSession(w.items)
    ensures Send(true, w, c).world.redirect == Some(LoginPage)
  {
    RefreshFailureGuarded(w, c);
  }

  lemma RefreshFailureGuarded(w: World, c: Config)
    requires |w.script| >= 2 && w.script[0] == Fail(Some(401)) && w.script[1] == Fail(Some(401)) && !c.retry
    requires !Includes(c.url, RefreshPath)
    requires Truthy(w.items, RefreshTokenKey).Some?
    ensures var sent := PrepareRequest(w.items, c);
      var rc := RefreshConfig(w.items[RefreshTokenKey]);
      Send(true, w, c) == Step(w.(items := ClearSession(w.items), script := w.script[2..],
                                  log := w.log + [sent, rc], redirect := Some(LoginPage)),
                               sent.(retry := true), Rejected(AxiosError(Some(401), rc)))
  {
    var sent := PrepareRequest(w.items, c);
    var rc := RefreshConfig(w.items[RefreshTokenKey]);
    assert Includes(rc.url, RefreshPath) by { IncludesTrivial(RefreshPath); }
    var w1 := w.(script := w.script[1..], log := w.log + [sent]);
    assert Send(true, w, c) == RefreshAndRetry(true, w1, sent.(retry := true), w.items[RefreshTokenKey]);
    assert Send(true, w1, rc) == Step(w1.(script := w.script[2..], log := w.log + [sent, rc]), rc, Rejected(AxiosError(Some(401), rc)));
  }

  /** A request object, updated in place by the interceptors. */
  class RequestConfig {
    var verb: string
    var url: string
    var authorization: Option<string>
    var retry: bool
    var data: string

    constructor (verb: string, url: string, data: string)
      ensures Value() == Config(verb, url, None, false, data)
    {
      this.verb := verb;
      this.url := url;
      this.authorization := None;
      this.retry := false;
      this.data := data;
    }

    function Value(): Config
      reads this
    {
      Config(verb, url, authorization, retry, data)
    }
  }

  /** The server: answers from its script and records each request it receives. */
  class ScriptedServer {
    var script: seq<Reply>
    var log: seq<Config>

    constructor (script: seq<Reply>)
      ensures this.script == script && log == []
    {
      this.script := script;
      this.log := [];
    }

    /** `None` when the script is exhausted: the call never settles and is not recorded. */
    method Call(c: RequestConfig) returns (reply: Option<Reply>)
      modifies this
      ensures old(script) == [] ==> reply.None? && script == old(script) && log == old(log)
      ensures old(script) != [] ==> reply == Some(old(script)[0]) && script == old(script)[1..] && log == old(log) + [c.Value()]
    {
      if script == [] {
        return None;
      }
      reply := Some(script[0]);
      script := script[1..];
      log := log + [c.Value()];
    }
  }

  /** The window location; `href` is `None` until the page navigates. */
  class BrowserLocation {
    var href: Option<string>

    constructor ()
      ensures href.None?
    {
      href := None;
    }
  }

  /** The configured client: the store and location it uses and the server behind it. */
  class Client {
    const store: Storage
    const server: ScriptedServer
    const location: BrowserLocation
    const guarded: bool

    constructor (store: Storage, server: ScriptedServer, location: BrowserLocation, guarded: bool)
      ensures this.store == store && this.server == server && this.location == location && this.guarded == guarded
    {
      this.store := store;
      this.server := server;
      this.location := location;
      this.guarded := guarded;
    }

    function State(): World
      reads store, server, location
    {
      World(store.items, server.script, server.log, location.href)
    }

    /** The request interceptor, writing the header into `c`. */
    method Intercept(c: RequestConfig)
      modifies c
      ensures c.Value() == PrepareRequest(store.items, old(c.Value()))
    {
      if Includes(c.url, LoginPath) || Includes(c.url, RefreshPath) {
        return;
      }
      var token := store.GetItem(TokenKey);
      if token.Some? && token.value != "" {
        c.authorization := Some(Bearer(token.value));
      }
    }

    /** A call through the client. */
    method Request(c: RequestConfig) returns (outcome: Outcome)
      modifies store, server, location, c
      decreases |server.script|, 1
      ensures Step(State(), c.Value(), outcome) == Send(guarded, old(State()), old(c.Value()))
    {
      Intercept(c);
      var reply := server.Call(c);
      match reply {
        case None =>
          outcome := Pending;
        case Some(Ok(data)) =>
          outcome := Resolved(data);
        case Some(Fail(status)) =>
          outcome := HandleError(status, c);
      }
    }

    /** The response interceptor's error handler, for a failed request `c` with `status`. */
    method HandleError(status: Option<int>, c: RequestConfig) returns (outcome: Outcome)
      modifies store, server, location, c
      decreases |server.script|, 3
      ensures Step(State(), c.Value(), outcome) == OnError(guarded, old(State()), AxiosError(status, old(c.Value())))
    {
      if !(status == Some(401) && !c.retry && !(guarded && Includes(c.url, RefreshPath))) {
        return Rejected(AxiosError(status, c.Value()));
      }
      c.retry := true;
      var refreshToken := store.GetItem(RefreshTokenKey);
      if refreshToken.None? || refreshToken.value == "" {
        return Rejected(AxiosError(status, c.Value()));
      }
      outcome := RefreshThenResubmit(c, refreshToken.value);
    }

    /** The refresh POST, then the resubmission of `c` or the end of the session. */
    method RefreshThenResubmit(c: RequestConfig, refreshToken: string) returns (outcome: Outcome)
      modifies store, server, location, c
      decreases |server.script|, 2
      ensures Step(State(), c.Value(), outcome) == RefreshAndRetry(guarded, old(State()), old(c.Value()), refreshToken)
    {
      var refreshRequest := new RequestConfig("post", RefreshPath, RefreshData(refreshToken));
      var refreshed := Request(refreshRequest);
      match refreshed {
        case Pending =>
          outcome := Pending;
        case Rejected(refreshError) =>
          EndSession();
          outcome := Rejected(refreshError);
        case Resolved(data) =>
          StoreTokens(data);
          c.authorization := Some(Bearer(JsString(data.token)));
          outcome := Request(c);
      }
    }

    /** A failed refresh: the session keys go and the page moves to the login page. */
    method EndSession()
      modifies store, location
      ensures store.items == ClearSession(old(store.items))
      ensures location.href == Some(LoginPage)
    {
      store.RemoveItem(TokenKey);
      store.RemoveItem(RefreshTokenKey);
      store.RemoveItem(UserKey);
      location.href := Some(LoginPage);
    }

    /** A successful refresh: both new tokens are stored. */
    method StoreTokens(data: AuthResponse)
      modifies store
      ensures store.items == StoreRefreshed(old(store.items), data)
    {
      store.SetItem(TokenKey, JsString(data.token));
      store.SetItem(RefreshTokenKey, JsString(data.refreshToken));
    }
  }
}
