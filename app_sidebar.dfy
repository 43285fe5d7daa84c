/**
 * The dashboard sidebar: the user read once from the store when it mounts,
 * and the navigation list chosen by that user's role. Without a user the
 * sidebar renders nothing.
 */
module AppSidebar {
  import opened Wrappers
  import opened Json
  import opened BrowserStorage
  import AuthService
  import Jwt
  import LoginForm

  datatype NavItem = NavItem(title: string, url: string)

  const AdminNavMain: seq<NavItem> := [
    NavItem("Ministries", "/dashboard/admin/ministry"),
    NavItem("User Management", "/dashboard/admin/users"),
    NavItem("Members", "/dashboard/admin/member"),
    NavItem("Staffs", "/dashboard/admin/staff"),
    NavItem("Teams", "/dashboard/admin/team"),
    NavItem("Events", "/dashboard/admin/events")
  ]

  const StaffNavMain: seq<NavItem> := [
    NavItem("Teams", "/dashboard/staff/team"),
    NavItem("Events", "/dashboard/staff/event")
  ]

  const MemberNavMain: seq<NavItem> := [
    NavItem("Dashboard", "/dashboard/member"),
    NavItem("My Profile", "/dashboard/member/profile"),
    NavItem("Events", "/dashboard/member/events"),
    NavItem("Giving", "/dashboard/member/giving"),
    NavItem("Resources", "/dashboard/member/resources")
  ]

  /** `getNavMain`: `None` is a role that is not a string at all. */
  function GetNavMain(role: Option<string>): (items: seq<NavItem>)
    ensures role == Some("Admin") ==> items == AdminNavMain && |items| == 6
    ensures role == Some("Staff") ==> items == StaffNavMain && |items| == 2
    ensures role != Some("Admin") && role != Some("Staff") ==> items == MemberNavMain && |items| == 5
  {
    match role
    case Some("Admin") => AdminNavMain
    case Some("Staff") => StaffNavMain
    case Some("Member") => MemberNavMain
    case _ => MemberNavMain
  }

  /**
   * The login form's landing page for Admin, Staff and Member is the first
   * link of the sidebar that role gets; any other role lands on the
   * dashboard root, under which every link of its list lies.
   */
  lemma LandingPageIsFirstLink(role: string)
    ensures role in {"Admin", "Staff", "Member"} ==>
      GetNavMain(Some(role))[0].url == LoginForm.RedirectBasedOnRole(role)
    ensures forall i :: 0 <= i < |GetNavMain(Some(role))| ==>
      LoginForm.DefaultHome <= GetNavMain(Some(role))[i].url
  {
    UnderDashboard(AdminNavMain);
    UnderDashboard(StaffNavMain);
    UnderDashboard(MemberNavMain);
  }

  /** Every link of a list whose links all start with `/dashboard/` lies under the dashboard root. */
  lemma UnderDashboard(items: seq<NavItem>)
    requires forall i :: 0 <= i < |items| ==> |items[i].url| >= 11 && items[i].url[..11] == "/dashboard/"
    ensures forall i :: 0 <= i < |items| ==> LoginForm.DefaultHome <= items[i].url
  {
    forall i | 0 <= i < |items|
      ensures LoginForm.DefaultHome <= items[i].url
    {
      assert items[i].url[..10] == items[i].url[..11][..10];
    }
  }

  /** `user.role` when it is a string. */
  function RoleOf(user: Json): (role: Option<string>)
    ensures role.Some? <==> Member(user, "role").Some? && Member(user, "role").value.JString?
    ensures role.Some? ==> Member(user, "role") == Some(JString(role.value))
  {
    match Member(user, "role")
    case Some(JString(s)) => Some(s)
    case _ => None
  }

  type Parser = string -> Option<Json>

  /** What the sidebar renders. */
  datatype View = Nothing | Rendered(nav: seq<NavItem>, user: Json)

  /** The render: nothing without a truthy user, otherwise the list for the user's role. */
  function Render(user: Option<Json>): (view: View)
    ensures view.Nothing? <==> user.None? || !Truthy(user.value)
    ensures view.Rendered? ==> view.user == user.value && view.nav == GetNavMain(RoleOf(user.value))
  {
    if user.Some? && Truthy(user.value) then Rendered(GetNavMain(RoleOf(user.value)), user.value) else Nothing
  }

  /** The nav list depends on the user only through its role. */
  lemma NavDependsOnlyOnRole(a: Json, b: Json)
    requires Truthy(a) && Truthy(b) && RoleOf(a) == RoleOf(b)
    ensures Render(Some(a)).nav == Render(Some(b)).nav
  {
  }

  /** The mount effect's result: the parsed stored text when there is one and it parses, otherwise `previous`. */
  function MountedUser(items: map<string, string>, parse: Parser, previous: Option<Json>): (user: Option<Json>)
    ensures AuthService.UserKey !in items || items[AuthService.UserKey] == "" ==> user == previous
    ensures AuthService.UserKey in items && items[AuthService.UserKey] != "" && parse(items[AuthService.UserKey]).None? ==> user == previous
    ensures AuthService.UserKey in items && items[AuthService.UserKey] != "" && parse(items[AuthService.UserKey]).Some? ==>
      user == parse(items[AuthService.UserKey])
  {
    if AuthService.UserKey in items && items[AuthService.UserKey] != "" then
      match parse(items[AuthService.UserKey])
      case Some(v) => Some(v)
      case None => previous
    else previous
  }

  /** A parser that reads back what the session store writes for a user. */
  ghost predicate ReadsBackUsers(parse: Parser)
  {
    forall u: AuthService.User :: parse(AuthService.StringifyUser(u)) == Some(AuthService.UserJson(u))
  }

  /** The role of the user a stored user text parses back to is that user's role. */
  lemma StoredRoleReadsBack(u: AuthService.User)
    ensures RoleOf(AuthService.UserJson(u)) == Some(u.role)
  {
    var members := [("id", JString(u.id)), ("email", JString(u.email)), ("role", JString(u.role))];
    assert LastMember(members, "role") == Some(JString(u.role));
  }

  /**
   * After `getUser` found a user, a sidebar mounted on that store shows the
   * list for the token's role.
   */
  lemma SidebarFollowsSession(items: map<string, string>, decode: Jwt.Decoder, nowMs: int, parse: Parser)
    requires ReadsBackUsers(parse)
    requires AuthService.GetUserOutcome(items, decode, nowMs).user.Some?
    ensures var read := AuthService.GetUserOutcome(items, decode, nowMs);
      Render(MountedUser(read.items, parse, None)) ==
        Rendered(GetNavMain(Some(read.user.value.role)), AuthService.UserJson(read.user.value))
  {
    var read := AuthService.GetUserOutcome(items, decode, nowMs);
    var u := read.user.value;
    assert read.items[AuthService.UserKey] == AuthService.StringifyUser(u);
    assert AuthService.StringifyUser(u)[0] == '{';
    StoredRoleReadsBack(u);
  }

  /** After a logout the mounted sidebar renders nothing. */
  lemma LogoutHidesSidebar(items: map<string, string>, parse: Parser)
    ensures Render(MountedUser(AuthService.ClearSession(items), parse, None)) == Nothing
  {
  }

  /** The sidebar's React state. */
  class SidebarState {
    var user: Option<Json>

    constructor ()
      ensures user.None?
    {
      user := None;
    }

    /** The mount effect. */
    method Mount(store: Storage, parse: Parser)
      modifies this
      ensures user == MountedUser(store.items, parse, old(user))
    {
      var storedUser := store.GetItem(AuthService.UserKey);
      if storedUser.Some? && storedUser.value != "" {
        var parsed := parse(storedUser.value);
        if parsed.Some? {
          user := parsed;
        }
      }
    }

    function View(): View
      reads this
    {
      Render(user)
    }
  }
}
