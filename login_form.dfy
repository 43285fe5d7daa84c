/**
 * The login form: field updates, the submit sequence (POST the
 * credentials, store the session, read the role from the returned token,
 * route by role) and the role-to-landing-page switch.
 */
module LoginForm {
  import opened Wrappers
  import opened Jwt
  import Json
  import opened BrowserStorage
  import opened AuthService
  import opened Dispatcher

  const AdminHome := "/dashboard/admin/ministry"
  const StaffHome := "/dashboard/staff/team"
  const MemberHome := "/dashboard/member"
  const DefaultHome := "/dashboard"
  const DefaultError := "Login failed. Please try again."

  /** `redirectBasedOnRole`: the landing page for a role; an unknown role lands on the dashboard root. */
  function RedirectBasedOnRole(role: string): (route: string)
    ensures route == AdminHome <==> role == "Admin"
    ensures route == StaffHome <==> role == "Staff"
    ensures route == MemberHome <==> role == "Member"
    ensures route == DefaultHome <==> role !in {"Admin", "Staff", "Member"}
  {
    match role
    case "Admin" => AdminHome
    case "Staff" => StaffHome
    case "Member" => MemberHome
    case _ => DefaultHome
  }

  /** A form field's value: the text of an input or the state of a checkbox. */
  datatype FieldValue = Text(text: string) | Flag(flag: bool)

  /** The input that fired a change event. */
  datatype InputEvent = InputEvent(name: string, value: string, checkbox: bool, checked: bool)

  const InitialForm: map<string, FieldValue> := map["email" := Text(""), "password" := Text(""), "rememberMe" := Flag(false)]

  /** `value` for an input, `checked` for a checkbox. */
  function EventValue(ev: InputEvent): FieldValue
  {
    if ev.checkbox then Flag(ev.checked) else Text(ev.value)
  }

  /** The JSON text of a field value. */
  function FieldJson(v: Option<FieldValue>): string
  {
    match v
    case Some(Text(s)) => Json.Quote(s)
    case Some(Flag(b)) => if b then "true" else "false"
    case None => "null"
  }

  /** The credentials body: the three fields the form renders, in declaration order. */
  function LoginBody(form: map<string, FieldValue>): string
  {
    "{\"email\":" + FieldJson(if "email" in form then Some(form["email"]) else None)
      + ",\"password\":" + FieldJson(if "password" in form then Some(form["password"]) else None)
      + ",\"rememberMe\":" + FieldJson(if "rememberMe" in form then Some(form["rememberMe"]) else None) + "}"
  }

  /** The login POST's request object. */
  function LoginConfig(form: map<string, FieldValue>): Config
  {
    Config("post", LoginPath, None, false, LoginBody(form))
  }

  /** What the catch block can receive: the rejected request, or the error thrown for a role-less token. */
  datatype Thrown = RequestFailed(error: AxiosError) | RoleMissing

  /** The `error` property of what was thrown: neither a rejected request nor an `Error` carries one. */
  function ErrorProperty(t: Thrown): Option<string>
  {
    None
  }

  /** `apiError.error || default`: the `error` property when it is a non-empty text, otherwise the fixed default. */
  function ErrorMessage(errorProperty: Option<string>): (message: string)
    ensures errorProperty.Some? && errorProperty.value != "" ==> message == errorProperty.value
    ensures errorProperty.None? || errorProperty.value == "" ==> message == DefaultError
  {
    if errorProperty.Some? && errorProperty.value != "" then errorProperty.value else DefaultError
  }

  /** Whatever went wrong, the form shows the fixed default message. */
  lemma ErrorIsAlwaysDefault(t: Thrown)
    ensures ErrorMessage(ErrorProperty(t)) == DefaultError
  {
  }

  /** The role read from the reply's token; a missing token has no role. */
  function ResponseRole(decode: Decoder, token: Option<string>): (role: Option<string>)
    ensures token.None? ==> role.None?
    ensures token.Some? ==> role == GetRoleFromToken(decode, token.value)
  {
    match token
    case None => None
    case Some(t) => GetRoleFromToken(decode, t)
  }

  /** The form's state after a submit, next to the world the login request left. */
  datatype Submission = Submission(world: World, route: Option<string>, error: string, loading: bool)

  /** Steps after the login reply: store the session, then route by the token's role or fail. */
  function AfterLogin(w: World, decode: Decoder, data: AuthResponse): (r: Submission)
    ensures r.world == w.(items := AfterStoreAuthData(w.items, decode, data))
    ensures !r.loading
    ensures ResponseRole(decode, data.token).None? ==> r.route.None? && r.error == DefaultError
    ensures ResponseRole(decode, data.token).Some? ==>
      r.route == Some(RedirectBasedOnRole(ResponseRole(decode, data.token).value)) && r.error == ""
  {
    var stored := w.(items := AfterStoreAuthData(w.items, decode, data));
    match ResponseRole(decode, data.token)
    case None => Submission(stored, None, ErrorMessage(ErrorProperty(RoleMissing)), false)
    case Some(role) => Submission(stored, Some(RedirectBasedOnRole(role)), "", false)
  }

  /** `handleSubmit`, as a function of the world before it. */
  function Submit(guarded: bool, w: World, decode: Decoder, form: map<string, FieldValue>): (r: Submission)
    ensures Send(guarded, w, LoginConfig(form)).outcome.Pending? ==> r.loading && r.route.None? && r.error == ""
    ensures Send(guarded, w, LoginConfig(form)).outcome.Rejected? ==>
      !r.loading && r.route.None? && r.error == DefaultError && r.world == Send(guarded, w, LoginConfig(form)).world
  {
    var step := Send(guarded, w, LoginConfig(form));
    match step.outcome
    case Pending => Submission(step.world, None, "", true)
    case Rejected(e) => Submission(step.world, None, ErrorMessage(ErrorProperty(RequestFailed(e))), false)
    case Resolved(data) => AfterLogin(step.world, decode, data)
  }

  /** The landing page comes from the token's role; the `user` the server sent plays no part. */
  lemma RouteIgnoresServerUser(w: World, decode: Decoder, data: AuthResponse, other: Option<User>)
    ensures AfterLogin(w, decode, data) == AfterLogin(w, decode, data.(user := other))
  {
    StoreAuthDataIgnoresServerUser(w.items, decode, data, other);
  }

  /** A login reply whose token has no role still leaves both tokens stored. */
  lemma RoleLessLoginKeepsSession(w: World, decode: Decoder, data: AuthResponse)
    requires ResponseRole(decode, data.token).None?
    ensures AfterLogin(w, decode, data).route.None?
    ensures TokenKey in AfterLogin(w, decode, data).world.items
    ensures AfterLogin(w, decode, data).world.items[TokenKey] == JsString(data.token)
    ensures AfterLogin(w, decode, data).world.items[RefreshTokenKey] == JsString(data.refreshToken)
  {
  }

  /** The login POST is the first request the server sees, and it goes out without a bearer token. */
  lemma LoginRequestCarriesNoToken(guarded: bool, w: World, form: map<string, FieldValue>)
    requires w.script != []
    ensures |Send(guarded, w, LoginConfig(form)).world.log| > |w.log|
    ensures Send(guarded, w, LoginConfig(form)).world.log[|w.log|] == LoginConfig(form)
    ensures Send(guarded, w, LoginConfig(form)).world.log[|w.log|].authorization.None?
  {
    Text.IncludesTrivial(LoginPath);
    var sent := PrepareRequest(w.items, LoginConfig(form));
    var w1 := w.(script := w.script[1..], log := w.log + [sent]);
    if w.script[0].Fail? {
      LogOnlyGrows(guarded, w1, AxiosError(w.script[0].status, sent));
    }
  }

  /** Requests only ever append to the server's log. */
  lemma {:induction false} LogOnlyGrows(guarded: bool, w: World, e: AxiosError)
    ensures w.log <= OnError(guarded, w, e).world.log
    decreases |w.script|, 3
  {
    if EntersRefresh(guarded, e) && Truthy(w.items, RefreshTokenKey).Some? {
      RefreshLogOnlyGrows(guarded, w, e.config.(retry := true), w.items[RefreshTokenKey]);
    }
  }

  lemma {:induction false} RefreshLogOnlyGrows(guarded: bool, w: World, marked: Config, refreshToken: string)
    ensures w.log <= RefreshAndRetry(guarded, w, marked, refreshToken).world.log
    decreases |w.script|, 2
  {
    var refresh := Send(guarded, w, RefreshConfig(refreshToken));
    SendLogOnlyGrows(guarded, w, RefreshConfig(refreshToken));
    if refresh.outcome.Resolved? {
      var data := refresh.outcome.data;
      SendLogOnlyGrows(guarded, refresh.world.(items := StoreRefreshed(refresh.world.items, data)),
                       marked.(authorization := Some(Bearer(JsString(data.token)))));
    }
  }

  lemma {:induction false} SendLogOnlyGrows(guarded: bool, w: World, c: Config)
    ensures w.log <= Send(guarded, w, c).world.log
    decreases |w.script|, 1
  {
    if w.script != [] && w.script[0].Fail? {
      var sent := PrepareRequest(w.items, c);
      LogOnlyGrows(guarded, w.(script := w.script[1..], log := w.log + [sent]), AxiosError(w.script[0].status, sent));
    }
  }

  /** The form's React state. */
  class LoginFormState {
    var formData: map<string, FieldValue>
    var loading: bool
    var error: string
    /** The last `router.push` target. */
    var route: Option<string>

    constructor ()
      ensures formData == InitialForm && !loading && error == "" && route.None?
    {
      formData := InitialForm;
      loading := false;
      error := "";
      route := None;
    }

    /** `handleInputChange`: only the named field changes, and any shown error is cleared. */
    method HandleInputChange(ev: InputEvent)
      modifies this
      ensures formData == old(formData)[ev.name := EventValue(ev)]
      ensures error == "" && loading == old(loading) && route == old(route)
    {
      formData := formData[ev.name := EventValue(ev)];
      if error != "" {
        error := "";
      }
    }

    /** `handleSubmit`, against the client the form posts through. */
    method HandleSubmit(client: Client, decode: Decoder)
      modifies this, client.store, client.server, client.location
      ensures var r := Submit(client.guarded, old(client.State()), decode, old(formData));
        client.State() == r.world && loading == r.loading && error == r.error
        && route == (if r.route.Some? then r.route else old(route))
      ensures formData == old(formData)
    {
      ghost var step := Send(client.guarded, client.State(), LoginConfig(formData));
      loading := true;
      error := "";
      var config := new RequestConfig("post", LoginPath, LoginBody(formData));
      assert config.Value() == LoginConfig(formData);
      var outcome := client.Request(config);
      assert outcome == step.outcome && client.State() == step.world;
      match outcome {
        case Pending =>
          return;
        case Rejected(e) =>
          error := ErrorMessage(ErrorProperty(RequestFailed(e)));
        case Resolved(data) =>
          FinishLogin(client, decode, data);
      }
      loading := false;
    }

    /** The rest of the `try` block once the login reply is in: store it, then route by the token's role. */
    method FinishLogin(client: Client, decode: Decoder, data: AuthResponse)
      modifies this, client.store
      ensures var r := AfterLogin(old(client.State()), decode, data);
        client.State() == r.world && error == (if r.route.Some? then old(error) else r.error)
        && route == (if r.route.Some? then r.route else old(route))
      ensures formData == old(formData) && loading == old(loading)
    {
      StoreAuthData(client.store, decode, data);
      var role := ResponseRole(decode, data.token);
      if role.None? {
        error := ErrorMessage(ErrorProperty(RoleMissing));
      } else {
        route := Some(RedirectBasedOnRole(role.value));
      }
    }
  }
}
