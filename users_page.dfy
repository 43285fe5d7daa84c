/**
 * The admin user-management page: the search and filter over the user
 * list, the payload each save sends, the password rules of the create and
 * change-password forms, and the badge styles.
 */
module UsersPage {
  import opened Wrappers
  import opened Text
  import opened Seqs
  import opened Badges

  datatype AppUser = AppUser(userId: int, email: string, firstName: string, lastName: string, userType: string, status: string)

  /** The `users` state: the fetch stores whatever the reply's `data` field held, which need not be an array. */
  datatype UsersState = UserArray(users: seq<AppUser>) | NotAnArray

  /** `safeUsers`: a non-array state counts as no users. */
  function SafeUsers(state: UsersState): (users: seq<AppUser>)
    ensures state.NotAnArray? ==> users == []
    ensures state.UserArray? ==> users == state.users
  {
    match state
    case UserArray(users) => users
    case NotAnArray => []
  }

  /** The search test: an empty query keeps everyone; otherwise the query, ignoring case, occurs in "first last" or in the email. */
  predicate SearchMatches(u: AppUser, query: string)
  {
    query == ""
    || Includes(ToLower(u.firstName + " " + u.lastName), ToLower(query))
    || Includes(ToLower(u.email), ToLower(query))
  }

  predicate UserMatches(u: AppUser, query: string, filterType: string, filterStatus: string)
  {
    SearchMatches(u, query)
    && (filterType == "all" || u.userType == filterType)
    && (filterStatus == "all" || u.status == filterStatus)
  }

  /** `filteredUsers`. */
  function FilteredUsers(state: UsersState, query: string, filterType: string, filterStatus: string): (r: seq<AppUser>)
    ensures |r| <= |SafeUsers(state)|
    ensures forall u :: u in r ==> u in SafeUsers(state)
    ensures filterType != "all" ==> forall u :: u in r ==> u.userType == filterType
    ensures filterStatus != "all" ==> forall u :: u in r ==> u.status == filterStatus
  {
    Filter(SafeUsers(state), u => UserMatches(u, query, filterType, filterStatus))
  }

  /** The filter keeps the users' order: the result is a subsequence of the list. */
  lemma FilteredUsersKeepOrder(state: UsersState, query: string, filterType: string, filterStatus: string)
    ensures IsSubsequence(FilteredUsers(state, query, filterType, filterStatus), SafeUsers(state))
  {
    FilterIsSubsequence(SafeUsers(state), u => UserMatches(u, query, filterType, filterStatus));
  }

  /** With no search and both filters at `all`, every user is shown. */
  lemma NoFilterShowsAll(state: UsersState)
    ensures FilteredUsers(state, "", "all", "all") == SafeUsers(state)
  {
    FilterAllPass(SafeUsers(state), u => UserMatches(u, "", "all", "all"));
  }

  /** A user is shown exactly when it is in the list and passes the search and both filters. */
  lemma FilteredUsersExactly(state: UsersState, query: string, filterType: string, filterStatus: string, u: AppUser)
    ensures u in FilteredUsers(state, query, filterType, filterStatus) <==>
      u in SafeUsers(state) && SearchMatches(u, query)
      && (filterType == "all" || u.userType == filterType) && (filterStatus == "all" || u.status == filterStatus)
  {
    FilterKeeps(SafeUsers(state), u => UserMatches(u, query, filterType, filterStatus), u);
  }

  /** The search ignores case in the query. */
  lemma SearchIgnoresQueryCase(u: AppUser, query: string)
    ensures SearchMatches(u, query) <==> SearchMatches(u, ToLower(query))
  {
    ToLowerIdempotent(query);
  }

  /** A request the save sends. */
  datatype SaveRequest = SaveRequest(verb: string, url: string, payload: map<string, string>)

  /** The save handler's request: a PUT of the data without either password field when editing, a POST without the confirmation otherwise. */
  function SubmitRequest(editing: Option<int>, data: map<string, string>): (r: SaveRequest)
    ensures editing.Some? ==>
      r.verb == "put" && r.url == "/user/users/" + IntToString(editing.value)
      && r.payload.Keys == data.Keys - {"password", "confirm_password"}
    ensures editing.None? ==>
      r.verb == "post" && r.url == "/user/users" && r.payload.Keys == data.Keys - {"confirm_password"}
    ensures forall k :: k in r.payload ==> k in data && r.payload[k] == data[k]
  {
    match editing
    case Some(id) => SaveRequest("put", "/user/users/" + IntToString(id), data - {"password", "confirm_password"})
    case None => SaveRequest("post", "/user/users", data - {"confirm_password"})
  }

  /** The edited user's id is read back from the last path segment of the update URL. */
  lemma UpdateUrlNamesUser(id: int, data: map<string, string>)
    ensures var url := SubmitRequest(Some(id), data).url;
      url[..|"/user/users/"|] == "/user/users/" && ParseInt(url[|"/user/users/"|..]) == Some(id)
  {
    var url := SubmitRequest(Some(id), data).url;
    assert url[|"/user/users/"|..] == IntToString(id);
    IntToStringRoundTrip(id);
  }

  const PasswordRequired := "Password is required"
  const PasswordTooShort := "Password must be at least 8 characters"
  const ConfirmRequired := "Please confirm your password"
  const PasswordsDiffer := "Passwords do not match"
  const MinPasswordLength := 8

  /**
   * The password field's rules, in the order they are checked: required, then
   * at least eight characters as `minLength` counts them, in UTF-16 code units.
   */
  function PasswordError(password: string): (error: Option<string>)
    ensures error.None? <==> Utf16Length(password) >= MinPasswordLength
    ensures password == "" ==> error == Some(PasswordRequired)
    ensures 0 < Utf16Length(password) < MinPasswordLength ==> error == Some(PasswordTooShort)
  {
    if password == "" then Some(PasswordRequired)
    else if Utf16Length(password) < MinPasswordLength then Some(PasswordTooShort)
    else None
  }

  /** The confirmation field's rules: required, then equal to the password. */
  function ConfirmError(confirm: string, password: string): (error: Option<string>)
    ensures error.None? <==> confirm != "" && confirm == password
    ensures confirm == "" ==> error == Some(ConfirmRequired)
    ensures confirm != "" && confirm != password ==> error == Some(PasswordsDiffer)
  {
    if confirm == "" then Some(ConfirmRequired)
    else if confirm != password then Some(PasswordsDiffer)
    else None
  }

  /**
   * A create whose password fields both pass posts the password, of at least
   * eight code units, and leaves the confirmation out of the payload.
   */
  lemma AcceptedCreateSendsPassword(data: map<string, string>)
    requires "password" in data && "confirm_password" in data
    requires PasswordError(data["password"]).None?
    requires ConfirmError(data["confirm_password"], data["password"]).None?
    ensures var r := SubmitRequest(None, data);
      && "password" in r.payload && r.payload["password"] == data["confirm_password"]
      && Utf16Length(r.payload["password"]) >= MinPasswordLength
      && "confirm_password" !in r.payload
  {
    var r := SubmitRequest(None, data);
    assert "password" in r.payload.Keys;
  }

  /** `getBadgeVariant`, by user type. */
  function GetBadgeVariant(userType: string): (v: Variant)
    ensures v == Destructive <==> userType == "Admin"
    ensures v == Default <==> userType == "Staff"
    ensures v == Secondary <==> userType == "Member"
    ensures v == Outline <==> userType !in {"Admin", "Staff", "Member"}
  {
    match userType
    case "Admin" => Destructive
    case "Staff" => Default
    case "Member" => Secondary
    case _ => Outline
  }

  /** `getStatusVariant`, by account status. */
  function GetStatusVariant(status: string): (v: Variant)
    ensures v == Default <==> status == "Active"
    ensures v != Default ==> v == Secondary
  {
    if status == "Active" then Default else Secondary
  }
}
