# Church dashboard: session core and page logic in Dafny

This project models the logic of a browser dashboard for a church. The dashboard offers ministries, members, staff, teams, events and users to a REST API. The model covers three parts of it.

**The session and authentication core.** This is the token codec (`lib/jwt.ts`), the session store (`services/authService.ts`) and the request dispatcher (`lib/axiosInstance.ts`).
- The store is a class over a `map<string, string>`, the browser's `localStorage`. It holds three session keys: `token`, `refreshToken` and `user`.
- Token decoding is the `jwt-decode` library. It is a parameter `decode: string -> Option<Claims>`, with `None` standing for a throw.
- The clock is a parameter `nowMs`.
- The dispatcher has two forms, proved equal:
  - Functions: `Send`, `OnError` and `RefreshAndRetry`, over a `World`. A `World` holds the store, a script of server replies, a log of sent requests and the redirect target.
  - Classes: `RequestConfig`, `ScriptedServer`, `BrowserLocation` and `Client`, which change those objects in place.
- A request that finds the script exhausted never settles: it is `Pending`.
- A flag `guarded` selects the interceptor as written (`false`) or with the refresh URL excluded from the refresh path (`true`); see Findings.

**Role routing.** This is the login form's landing route and submit sequence (`components/login-form.tsx`), and the sidebar's choice of navigation list (`components/app-sidebar.tsx`). `JSON.parse` is a parameter of the sidebar.

**Client-side list logic of the dashboard pages.**
- Filters, each an order-preserving `Seqs.Filter` built from conjunctions. Lower-casing is ASCII only; lengths are counted as the Left out section says.
- The local list updates: replace by id, append, remove by id.
- Small record and string transforms: the recurrence `none`/`''` mapping, date cutting at `T`, payload stripping, the team select.
- The badge maps.
- The grid/detail view state of the two team pages.

Pages whose handlers change state step by step have classes with `modifies` clauses: `StaffList`, `MemberList`, `EventList`, `TeamPage`, `TeamBrowser`, `LoginFormState`, `SidebarState`. Each method is proved against a function of the old state.

JavaScript value rules are written out where the code depends on them:
- `undefined` is `None`, and a template literal or `setItem` writes it as the text `undefined`.
- `''` is falsy for `||` and `?:`.
- `Array.isArray` guards are a datatype of reply shapes.
- `%` truncates toward zero.
- `Number.prototype.toString` is `Text.IntToString`, proved injective and read back by `Text.ParseInt`.

Two behaviours of the code are modelled as written, though they may surprise:
- The login form's error text is always the fixed default. Neither a rejected request nor the thrown role error has an `error` property (`LoginForm.ErrorIsAlwaysDefault`).
- The staff event page's date-and-time field becomes `day + "Tundefined"` for a stored date that has no `T` (`StaffEventPage.DateTimeField`).

## Model

| member | source | states |
|---|---|---|
| Jwt.DecodeToken | lib/jwt.ts:12-23 | `None` exactly for the empty token or a token the decoder rejects; otherwise the decoder's claims |
| Jwt.IsTokenExpired | lib/jwt.ts:25-37 | an undecodable token, or one with no or a zero `exp`, is expired; a token that is not expired decodes and has an `exp` |
| Jwt.ExpiryIsClockComparison | lib/jwt.ts:31-32 | with a non-zero `exp`, expired iff `nowMs >= exp * 1000` |
| Jwt.ExpiryIsMonotone | lib/jwt.ts:31-32 | a token expired at some time stays expired at every later time |
| Jwt.NotExpiredDecodes | lib/jwt.ts:14-36 | a non-empty token that is not expired is decoded by `decodeToken` |
| Jwt.GetRoleFromToken | lib/jwt.ts:39-42 | `None` iff decoding fails or the role claim is empty; otherwise the role claim |
| Jwt.GetUserIdFromToken | lib/jwt.ts:44-47 | `None` iff decoding fails or the `user_id` claim is empty; otherwise that claim |
| AuthService.GetUserFromToken | services/authService.ts:14-23 | `None` iff `decodeToken` gives nothing; otherwise id, email and role copied from the claims |
| AuthService.StoredUserReadsBack | services/authService.ts:39 | the text `JSON.stringify(user)` writes reads back as that user |
| AuthService.StoredUserInjective | services/authService.ts:60 | two users are stored as the same text iff they are equal |
| AuthService.ClearSession | services/authService.ts:51-53 | the three session keys are gone and every other key keeps its value |
| AuthService.AfterStoreAuthData | services/authService.ts:31-42 | both tokens written as given; `user` is the token's user when it decodes and otherwise left as it was; no other key changes |
| AuthService.StoreAuthData | services/authService.ts:31-42 | the store afterwards is `AfterStoreAuthData` of the store before |
| AuthService.StoreAuthDataIgnoresServerUser | services/authService.ts:37 | the `user` field of the reply has no effect on the store |
| AuthService.GetUserOutcome | services/authService.ts:45-67 | a missing, empty or expired token clears the session and gives no user; otherwise the token's user, written back under `user` |
| AuthService.GetUser | services/authService.ts:45-67 | the result and the new store are `GetUserOutcome` of the old store |
| AuthService.GetUserNullClears | services/authService.ts:58-64 | whenever `getUser` returns null, no session key is left: the branch that returns null without clearing cannot be reached |
| AuthService.GetUserAfterStore | services/authService.ts:31-62 | after storing a reply with a live token, `getUser` returns that token's user, whatever was cached |
| AuthService.IsTokenValid | services/authService.ts:70-76 | valid iff a token is stored, is not empty and has not expired |
| AuthService.ValidTokenYieldsUser | services/authService.ts:70-76 | a valid token always gives `getUser` a user |
| AuthService.GetToken | services/authService.ts:79-84 | the stored token, `None` exactly when none is stored |
| AuthService.Logout | services/authService.ts:87-93 | the store afterwards is `ClearSession` of the store before |
| Dispatcher.Send | lib/axiosInstance.ts:18-89 | a request passes the request interceptor, takes at most the replies left, and settles as the response interceptor says; its cases are stated by the lemmas below |
| Dispatcher.OnError | lib/axiosInstance.ts:43-88 | the error handler takes at most the replies left; its cases are stated by the lemmas below |
| Dispatcher.RefreshAndRetry | lib/axiosInstance.ts:55-84 | the refresh and the resubmission take at most the replies left; their cases are stated by the lemmas below |
| Dispatcher.Unauthorized | lib/axiosInstance.ts:47 | a reply script of n 401 answers |
| Dispatcher.PrepareRequest | lib/axiosInstance.ts:18-38 | only the header can change; login and refresh URLs, and requests with no token or an empty one, pass unchanged; others get `Bearer <token>` |
| Dispatcher.PrepareRequestIdempotent | lib/axiosInstance.ts:27-30 | running the request interceptor twice is running it once |
| Dispatcher.SuccessPassesThrough | lib/axiosInstance.ts:42 | a success is returned as is; the only effect is one logged request |
| Dispatcher.OtherFailureRejected | lib/axiosInstance.ts:47 | a non-401 failure, or a 401 on a request marked `_retry`, rejects with the original error; the store and the location are untouched |
| Dispatcher.MarkedRequestIsFinal | lib/axiosInstance.ts:47-48 | a request already marked `_retry` causes no refresh: at most one call, no store change, no redirect |
| Dispatcher.UnauthorizedWithoutRefreshToken | lib/axiosInstance.ts:51-53 | a 401 with no refresh token makes no refresh call and rejects the marked request; the store stays as it was |
| Dispatcher.RefreshThenRetry | lib/axiosInstance.ts:55-73 | a 401 then a successful refresh POSTs the refresh token once, stores both new tokens, and resubmits the marked request with `Bearer <new token>`; the retry's result is the result |
| Dispatcher.RetryCarriesNewToken | lib/axiosInstance.ts:68-73 | the resubmitted request goes out with the new header as it was set |
| Dispatcher.RefreshFailureClearsSession | lib/axiosInstance.ts:75-84 | a failed refresh clears the session, redirects to `/login`, rejects with the refresh error and does not retry |
| Dispatcher.RefreshLoopsOnUnauthorized | lib/axiosInstance.ts:47-55 | as written, against 401 replies the refresh POST re-enters the refresh path until the script runs out; all n calls are refresh POSTs |
| Dispatcher.AsWrittenNeverSettles | lib/axiosInstance.ts:47-55 | as written, a 401 with a stored refresh token and a server that answers 401 to every call never settles; it uses all n calls and clears nothing |
| Dispatcher.GuardedSettles | lib/axiosInstance.ts:75-84 | with the refresh URL kept out of the refresh path, the same request settles after two calls: session cleared, redirect to `/login`, rejected with the refresh POST's 401 |
| Dispatcher.RefreshFailureGuarded | lib/axiosInstance.ts:75-84 | with the guard, a refresh POST answered 401 is a refresh failure |
| Dispatcher.Client.Intercept | lib/axiosInstance.ts:18-38 | the request object afterwards is `PrepareRequest` of it before |
| Dispatcher.Client.Request | lib/axiosInstance.ts:41-89 | the outcome, the request object, the store, server and location afterwards are `Send` of the state before |
| Dispatcher.Client.HandleError | lib/axiosInstance.ts:43-88 | the response error handler in place equals `OnError` |
| Dispatcher.Client.RefreshThenResubmit | lib/axiosInstance.ts:51-84 | the refresh and the resubmission in place equal `RefreshAndRetry` |
| Dispatcher.Client.EndSession | lib/axiosInstance.ts:77-82 | the session keys are removed and the location becomes `/login` |
| Dispatcher.Client.StoreTokens | lib/axiosInstance.ts:62-65 | both new tokens are written and nothing else |
| Dispatcher.ScriptedServer.Call | lib/axiosInstance.ts:55 | each call takes the next scripted reply and logs the request; an exhausted script gives no reply |
| LoginForm.RedirectBasedOnRole | components/login-form.tsx:71-85 | Admin, Staff and Member go to their own dashboards, and only they do; every other role goes to `/dashboard` |
| LoginForm.ErrorMessage | components/login-form.tsx:64-65 | a present, non-empty `error` property is shown, otherwise the fixed default |
| LoginForm.ErrorIsAlwaysDefault | components/login-form.tsx:56-65 | neither error the block can catch has an `error` property, so the default is always shown |
| LoginForm.ResponseRole | components/login-form.tsx:53-54 | the role comes from the reply's token and is missing when the token is absent |
| LoginForm.AfterLogin | components/login-form.tsx:52-61 | the session is stored first; a token without a role shows the default error and does not route; otherwise the role's landing route |
| LoginForm.Submit | components/login-form.tsx:45-69 | a rejected login shows the default error and stores nothing beyond the dispatcher's effects; an unsettled one stays loading |
| LoginForm.RouteIgnoresServerUser | components/login-form.tsx:53-54 | the route and the store do not depend on the reply's `user` |
| LoginForm.RoleLessLoginKeepsSession | components/login-form.tsx:51-58 | a login whose token has no role still leaves both tokens stored |
| LoginForm.LoginRequestCarriesNoToken | components/login-form.tsx:51 | the login POST goes out without an `Authorization` header, whatever token is stored |
| LoginForm.SendLogOnlyGrows | lib/axiosInstance.ts:41-89 | a request through the dispatcher only ever adds to the request log |
| LoginForm.LoginFormState.HandleInputChange | components/login-form.tsx:35-43 | only the named field changes, to the value or the checkbox state, and the error is cleared |
| LoginForm.LoginFormState.HandleSubmit | components/login-form.tsx:45-69 | the new state of the form and the client is `Submit` of the state before |
| LoginForm.LoginFormState.FinishLogin | components/login-form.tsx:52-61 | store the reply, then route by the token's role or set the error, as `AfterLogin` |
| AppSidebar.GetNavMain | components/app-sidebar.tsx:105-112 | Admin gets the six-item admin list, Staff the two-item staff list, every other role the five-item member list |
| AppSidebar.LandingPageIsFirstLink | components/app-sidebar.tsx:68-112 | for Admin, Staff and Member, the page `redirectBasedOnRole` lands on (components/login-form.tsx:71-85) is the first link of the list that role gets; every link of every role's list lies under the dashboard root `/dashboard` |
| AppSidebar.RoleOf | components/app-sidebar.tsx:139 | `user.role` is read exactly when it is a string |
| AppSidebar.StoredRoleReadsBack | components/app-sidebar.tsx:98 | the user text `getUser` stores parses back to a user whose role is the stored role |
| AppSidebar.Render | components/app-sidebar.tsx:114-139 | nothing without a truthy user; otherwise the list for the user's role |
| AppSidebar.NavDependsOnlyOnRole | components/app-sidebar.tsx:139 | two users with the same role get the same list |
| AppSidebar.MountedUser | components/app-sidebar.tsx:94-103 | a missing, empty or unparsable stored user leaves the state as it was; otherwise the parsed value |
| AppSidebar.SidebarFollowsSession | components/app-sidebar.tsx:94-139 | after `getUser` found a user, the sidebar shows the list for that token's role |
| AppSidebar.LogoutHidesSidebar | components/app-sidebar.tsx:114-117 | after a logout the mounted sidebar renders nothing |
| AppSidebar.SidebarState.Mount | components/app-sidebar.tsx:94-103 | the user state afterwards is `MountedUser` of the store |
| UsersPage.SafeUsers | app/dashboard/admin/users/page.tsx:158 | a `users` value that is not an array counts as empty |
| UsersPage.FilteredUsers | app/dashboard/admin/users/page.tsx:161-169 | every kept user is in the list and has the filtered type and status |
| UsersPage.FilteredUsersKeepOrder | app/dashboard/admin/users/page.tsx:161-169 | the kept users keep their order |
| UsersPage.NoFilterShowsAll | app/dashboard/admin/users/page.tsx:162-167 | an empty search with both filters at `all` shows every user |
| UsersPage.FilteredUsersExactly | app/dashboard/admin/users/page.tsx:161-169 | a user is kept iff the lower-cased query is in the lower-cased full name or email and both filters pass |
| UsersPage.SearchIgnoresQueryCase | app/dashboard/admin/users/page.tsx:163-164 | the search does not depend on the query's case |
| UsersPage.SubmitRequest | app/dashboard/admin/users/page.tsx:171-190 | an update PUTs to the user's URL without either password field; a create POSTs without `confirm_password`; other fields are passed unchanged |
| UsersPage.UpdateUrlNamesUser | app/dashboard/admin/users/page.tsx:176 | the update URL names the edited user's id |
| UsersPage.PasswordError | app/dashboard/admin/users/page.tsx:626-631 | no error iff at least 8 UTF-16 code units, as `minLength` counts `value.length`; empty and short passwords get their own messages. The same rule guards the new password at lines 783-789 |
| UsersPage.ConfirmError | app/dashboard/admin/users/page.tsx:646-649 | no error iff the confirmation is present and equals the password |
| UsersPage.AcceptedCreateSendsPassword | app/dashboard/admin/users/page.tsx:179-180 | a create whose two password fields pass their rules (lines 626-649) posts the password, of at least 8 code units and equal to the confirmation, and leaves `confirm_password` out |
| UsersPage.GetBadgeVariant | app/dashboard/admin/users/page.tsx:263-270 | Admin, Staff and Member each have their own style, and only they do; others are outlined |
| UsersPage.GetStatusVariant | app/dashboard/admin/users/page.tsx:272-274 | Active and only Active gets the default style; everything else is secondary |
| StaffPage.FullName | app/dashboard/admin/staff/page.tsx:225-228 | the search name is `first last`, or `undefined undefined` for a record without a user |
| StaffPage.FilterStaff | app/dashboard/admin/staff/page.tsx:220-246 | the four guarded filter steps in sequence give one filter by the conjunction of the four predicates |
| StaffPage.NoFilterShowsAllStaff | app/dashboard/admin/staff/page.tsx:220-246 | an empty search with every filter at `all` shows every record |
| StaffPage.FilterStaffExactly | app/dashboard/admin/staff/page.tsx:220-246 | the result keeps order, and a record is kept iff it passes all four filters |
| StaffPage.MinistryFilterNamesOneId | app/dashboard/admin/staff/page.tsx:240-243 | records that pass one ministry filter all have the same ministry id |
| StaffPage.UserlessRecordMatchesUndefined | app/dashboard/admin/staff/page.tsx:225-228 | a record without a user matches the search `undefined` |
| StaffPage.WithoutIndex | app/dashboard/admin/staff/page.tsx:305-311 | exactly index i is dropped and the rest keep their order; an index out of range changes nothing |
| StaffPage.UpdateUrl | app/dashboard/admin/staff/page.tsx:255-257 | the update URL starts with `/staff/staff`, as written |
| StaffPage.UpdateUrlNamesRecord | app/dashboard/admin/staff/page.tsx:255-257 | what follows `/staff/staff` reads back as the record's id |
| StaffPage.EligibleUsers | app/dashboard/admin/staff/page.tsx:722 | only users of type Staff are offered |
| StaffPage.EligibleUsersExactly | app/dashboard/admin/staff/page.tsx:722 | a user is offered iff they are of type Staff and no staff record has their user id |
| StaffPage.GetEmploymentVariant | app/dashboard/admin/staff/page.tsx:391-398 | full-time and part-time each have their own style, and only they do; others are outlined |
| StaffPage.GetStatusVariant | app/dashboard/admin/staff/page.tsx:414-416 | the default style iff the record is active |
| StaffPage.QualificationList.Push | app/dashboard/admin/staff/page.tsx:283 | the array gains `q` at its end, in place |
| StaffPage.StaffList.Replace | app/dashboard/admin/staff/page.tsx:255-257 | records with the edited id become the server's record; distinct ids and unshared arrays are kept |
| StaffPage.StaffList.Append | app/dashboard/admin/staff/page.tsx:260-262 | the created record goes at the end |
| StaffPage.StaffList.Delete | app/dashboard/admin/staff/page.tsx:363-364 | exactly the records with that id go |
| StaffPage.StaffList.AddQualification | app/dashboard/admin/staff/page.tsx:275-300 | the selected record's array gains `q` in place, or gets a new one-item array; other records and the length stay the same |
| StaffPage.StaffList.RemoveQualification | app/dashboard/admin/staff/page.tsx:302-321 | the record with that id gets a new array without index i; other records are unchanged |
| MemberPage.GuardedMembers | app/dashboard/admin/member/page.tsx:218 | a `members` value that is not an array counts as empty |
| MemberPage.FilteredMembers | app/dashboard/admin/member/page.tsx:221-228 | every kept member comes from the guarded list and has the filtered status |
| MemberPage.TeamFilterMeaning | app/dashboard/admin/member/page.tsx:223-226 | `has_team` keeps exactly members with an active participation, `no_team` exactly those with none listed; other values keep no one |
| MemberPage.OnlyInactiveTeamsPassNeither | app/dashboard/admin/member/page.tsx:223-226 | a member whose participations are all inactive passes neither team filter |
| MemberPage.FilteredMembersShape | app/dashboard/admin/member/page.tsx:218-228 | with both filters at `all` the list is shown whole; the order is always kept |
| MemberPage.StatusFilterExactly | app/dashboard/admin/member/page.tsx:222 | a status filter keeps exactly the members with that status |
| MemberPage.MemberUsers | app/dashboard/admin/member/page.tsx:176-177 | the loaded users are only those of type Member |
| MemberPage.MemberUsersExactly | app/dashboard/admin/member/page.tsx:176-177 | a user is kept iff they are of type Member |
| MemberPage.SelectableUsers | app/dashboard/admin/member/page.tsx:647 | no list when `members` is not an array; otherwise only listed users are offered |
| MemberPage.SelectableUsersExactly | app/dashboard/admin/member/page.tsx:647 | a user is offered iff no member has their user id |
| MemberPage.ToggleGift | app/dashboard/admin/member/page.tsx:791-798 | checking appends the gift; unchecking removes every copy of it and keeps every other gift |
| MemberPage.UncheckKeepsOrder | app/dashboard/admin/member/page.tsx:791-798 | unchecking keeps the other gifts in order |
| MemberPage.MemberList.Replace | app/dashboard/admin/member/page.tsx:235-238 | members with the saved id become the server's record |
| MemberPage.MemberList.Append | app/dashboard/admin/member/page.tsx:242-243 | the created member goes at the end |
| MemberPage.MemberList.Delete | app/dashboard/admin/member/page.tsx:298-299 | the members with that id go |
| MemberPage.DeleteRemovesExactly | app/dashboard/admin/member/page.tsx:299 | a member stays iff their id differs, and the order is kept |
| MemberPage.MemberUrl | app/dashboard/admin/member/page.tsx:235 | the update URL starts with `/members/members`, the id following with no separator, as written; the delete at line 298 uses the same URL |
| MemberPage.MemberUrlNamesMember | app/dashboard/admin/member/page.tsx:235-298 | what follows `/members/members` reads back as the member's id, and two members get the same URL iff their ids are equal |
| MinistryPage.FilterMinistries | app/dashboard/admin/ministry/page.tsx:115-130 | the guarded search and type steps give one filter by their conjunction |
| MinistryPage.FilterShape | app/dashboard/admin/ministry/page.tsx:115-130 | an empty search with type `all` shows every ministry; the order is always kept |
| MinistryPage.FilterExactly | app/dashboard/admin/ministry/page.tsx:118-127 | a ministry is kept iff the lower-cased query is in its lower-cased name or description and its type matches ignoring case |
| MinistryPage.TypeFilterIgnoresCase | app/dashboard/admin/ministry/page.tsx:125-127 | the type filter does not depend on the filter value's case |
| MinistryPage.GetMinistryTypeVariant | app/dashboard/admin/ministry/page.tsx:199-208 | music, youth/education, spiritual and every other type get their styles, compared without case |
| MinistryPage.MinistryTypeVariantIgnoresCase | app/dashboard/admin/ministry/page.tsx:199-208 | the style does not depend on the type's case |
| MinistryPage.ComputeStats | app/dashboard/admin/ministry/page.tsx:307-340 | the cards count all ministries and the exact-case types Music, Spiritual and Youth |
| MinistryPage.MusicCardVersusFilter | app/dashboard/admin/ministry/page.tsx:318 | the Music card never counts more than the music filter shows, and a lower-case `music` ministry is counted by the filter only |
| Events.UnwrapList | app/dashboard/admin/event/page.tsx:127-140 | an array body as is; otherwise its `data` field when present, else empty. The staff event page does the same at app/dashboard/staff/event/page.tsx:125-138 |
| Events.UnwrapEitherShape | app/dashboard/admin/event/page.tsx:127-129 | a bare array and one wrapped in `data` give the same list |
| Events.RecordOf | app/dashboard/admin/event/page.tsx:184 | the saved record is the reply's `data` field when present, otherwise the reply. The staff page uses the same rule at app/dashboard/admin/staff/page.tsx:256-261, and the staff team page at app/dashboard/staff/team/page.tsx:141-151 |
| Events.TeamsByMinistry | app/dashboard/admin/event/page.tsx:237-239 | only teams of that ministry are offered. The staff event page does the same at app/dashboard/staff/event/page.tsx:231-233 |
| Events.TeamsByMinistryExactly | app/dashboard/admin/event/page.tsx:237-239 | a team is offered iff it belongs to that ministry, in the list's order |
| Events.GetStatusVariant | app/dashboard/admin/event/page.tsx:241-249 | Active, Planned and Cancelled each have their own style, and only they do; Completed and every other status are outlined. The staff page repeats this at app/dashboard/staff/event/page.tsx:235-243 |
| Events.EventList.Replace | app/dashboard/admin/event/page.tsx:185-187 | events with the edited id become the server's record. The staff page does the same at app/dashboard/staff/event/page.tsx:178-180 |
| Events.EventList.Append | app/dashboard/admin/event/page.tsx:190-192 | the created event goes at the end |
| Events.EventList.Delete | app/dashboard/admin/event/page.tsx:213 | the events with that id go |
| Events.ReplaceTouchesOnlyThatId | app/dashboard/admin/event/page.tsx:185-187 | an update keeps the length, touches only events with the edited id, and puts the server's record there |
| Events.DeleteRemovesExactly | app/dashboard/admin/event/page.tsx:213 | an event stays iff its id differs, and the order is kept |
| AdminEventPage.FormRecurrence | app/dashboard/admin/event/page.tsx:158 | a present, non-empty recurrence is shown as is, otherwise `none` |
| AdminEventPage.EditForm | app/dashboard/admin/event/page.tsx:152-159 | the start date is the prefix before the first `T`; the end date is null iff absent or empty, else its prefix before `T`; every other field is the stored event's |
| AdminEventPage.SubmitData | app/dashboard/admin/event/page.tsx:177-180 | `none` is sent as the empty string; every other value and every other field unchanged |
| AdminEventPage.RecurrenceRoundTrip | app/dashboard/admin/event/page.tsx:158-179 | an absent, empty or `none` recurrence is saved back as the empty string, any other one as it was |
| AdminEventPage.EditFormKeepsTheDay | app/dashboard/admin/event/page.tsx:156 | a stored `day + "T" + time` shows as just the day |
| AdminEventPage.BlankFormSubmits | app/dashboard/admin/event/page.tsx:161-171 | the blank form saves a planned event of ministry 1 with no team and no recurrence |
| StaffEventPage.DateTimeField | app/dashboard/staff/event/page.tsx:154 | with a `T`, a prefix of the stored text that runs through the `T` and at most five more characters; without one, the text followed by `Tundefined` |
| StaffEventPage.DateTimeFieldOfTimestamp | app/dashboard/staff/event/page.tsx:154 | a stored `day + "T" + hh:mm + rest` shows as `day + "T" + hh:mm` |
| StaffEventPage.EditForm | app/dashboard/staff/event/page.tsx:150-156 | both dates cut to minutes; an absent or empty end date is null; every other field is the stored event's |
| StaffEventPage.SelectValue | app/dashboard/staff/event/page.tsx:388 | the option value is empty iff no team is set |
| StaffEventPage.OnTeamChange | app/dashboard/staff/event/page.tsx:389 | the empty value clears the team; any other value is its number |
| StaffEventPage.TeamSelectRoundTrip | app/dashboard/staff/event/page.tsx:388-389 | choosing the option a team id shows selects that id again; clearing selects none |
| StaffTeamPage.MinistryTeams | app/dashboard/staff/team/page.tsx:89-104 | every team kept after a load belongs to ministry 1 |
| StaffTeamPage.MinistryTeamsExactly | app/dashboard/staff/team/page.tsx:104 | a team is kept iff it belongs to ministry 1, in the reply's order |
| StaffTeamPage.Updated | app/dashboard/staff/team/page.tsx:144 | the server's record with the edited team's member count |
| StaffTeamPage.UpdateKeepsMemberCount | app/dashboard/staff/team/page.tsx:142-146 | an update keeps the length, rewrites only the edited team, and keeps its member count |
| StaffTeamPage.DeleteRemovesExactly | app/dashboard/staff/team/page.tsx:203 | a team stays iff its id differs, and the order is kept |
| StaffTeamPage.TeamPage.constructor | app/dashboard/staff/team/page.tsx:67-74 | the page starts with no teams, in the grid, with nothing selected |
| StaffTeamPage.TeamPage.Load | app/dashboard/staff/team/page.tsx:98-105 | the teams are the reply's teams of ministry 1; the view is unchanged |
| StaffTeamPage.TeamPage.Update | app/dashboard/staff/team/page.tsx:142-146 | the edited team becomes the server's record with its old member count; the view is unchanged |
| StaffTeamPage.TeamPage.Append | app/dashboard/staff/team/page.tsx:151-152 | the created team goes at the end |
| StaffTeamPage.TeamPage.ViewTeamDetails | app/dashboard/staff/team/page.tsx:188-191 | that team is shown in detail mode; grid iff nothing selected is kept |
| StaffTeamPage.TeamPage.CloseTeamDetails | app/dashboard/staff/team/page.tsx:193-196 | nothing selected, grid mode |
| StaffTeamPage.TeamPage.OpenDeleteConfirm | app/dashboard/staff/team/page.tsx:182-186 | the team to delete is set and the dialog opens |
| StaffTeamPage.TeamPage.ConfirmDelete | app/dashboard/staff/team/page.tsx:198-216 | no target: nothing changes. Otherwise its id leaves the list and the dialog closes; a detail view of that team returns to the grid, a view of another team stays |
| AdminTeamPage.FilteredTeams | app/dashboard/admin/team/page.tsx:104-106 | only listed teams are shown |
| AdminTeamPage.FilteredTeamsExactly | app/dashboard/admin/team/page.tsx:104-106 | `all` shows every team; the decimal id of a ministry shows exactly its teams, in order |
| AdminTeamPage.JsRemainderByFour | app/dashboard/admin/team/page.tsx:115 | the remainder of JavaScript's `%`, which takes the sign of the dividend |
| AdminTeamPage.GetMinistryVariant | app/dashboard/admin/team/page.tsx:113-116 | for ids of zero or more, the style at `id mod 4` in the four-style cycle; a negative id reads a style only when divisible by 4 |
| AdminTeamPage.MinistryVariantCycles | app/dashboard/admin/team/page.tsx:113-116 | the style repeats every four ids and differs between neighbouring ids |
| AdminTeamPage.FindMinistry | app/dashboard/admin/team/page.tsx:109 | the first ministry with that id, `None` iff there is none |
| AdminTeamPage.GetMinistryName | app/dashboard/admin/team/page.tsx:108-110 | where a ministry has that id, the name of the first one |
| AdminTeamPage.FindNumberedMinistry | app/dashboard/admin/team/page.tsx:109 | in a list numbered 1, 2, 3, … in order, an id finds the ministry at its place, and only the ids 1 to the length find one |
| AdminTeamPage.MockMinistryNames | app/dashboard/admin/team/page.tsx:68-73 | exactly the ids 1 to 4 have a name among the listed ministries, each the name of the ministry at that place |
| AdminTeamPage.TeamBrowser.ViewTeamDetails | app/dashboard/admin/team/page.tsx:87-96 | a fetched record opens the detail view on it; a failed fetch sets the error and leaves the view as it was |
| AdminTeamPage.TeamBrowser.CloseTeamDetails | app/dashboard/admin/team/page.tsx:98-101 | nothing selected, grid mode |
| AdminTeamPage.TeamBrowser.Shown | app/dashboard/admin/team/page.tsx:104-106 | the cards on screen are listed teams that pass the filter |

## Left out

- Network I/O: every request is a scripted reply of a `ScriptedServer`, one per call. CRUD round trips beyond the local list updates, and `Promise.all` fan-out, are not modelled.
- Concurrent 401s racing to refresh: the model is sequential, so only the per-request `_retry` rule is modelled.
- `jwt-decode` is the `decode` parameter; base64 and JSON decoding of tokens are not modelled. `JSON.parse` is the sidebar's `parse` parameter; what it reads back is stated as the `ReadsBackUsers` assumption.
- `Date.now()` is the `nowMs` parameter. `Math.random` member counts on the ministry page are not modelled.
- The `typeof window` guards are dropped: every operation runs as in the browser.
- Rendering, toasts, logging, react-hook-form plumbing, the date picker's time-zone conversion, and locale date formatting are not modelled.
- Regex validation of email addresses is not modelled.
- `authService.login` and `authService.refreshToken` are not modelled separately. `login` is the POST the login form sends through the dispatcher. `refreshToken` is never called by the interceptor, which POSTs to the refresh URL itself.
- `router.push` and `window.location.href` are recorded as a route field and a `redirect` field, without navigation.
- Form fields other than those the logic reads (iat, icons, descriptions in badges, etc.) are omitted from the datatypes.
- The staff update URL `/staff/staff${id}` and the member update and delete URL `/members/members${id}` are modelled as written, with no separator before the id (`StaffPage.UpdateUrl`, `MemberPage.MemberUrl`). Only the fact that the id can be read back is proved, since the backend routes are not part of this model.
- Dispatcher.Send: its own contract, like those of OnError and RefreshAndRetry, bounds only the replies it uses; the dispatcher's behaviour is stated by the lemmas about it. Timeouts and network errors without a status are a `Fail(None)` reply and nothing more.
- Events.UnwrapList: a `data` field that is truthy but not an array is not modelled; the list shapes are an array body, or an object whose `data` is an array or missing.
- StaffEventPage.OnTeamChange: `Number` is modelled only on an optional minus sign followed by decimal digits (`Text.ParseInt`). Other numeric spellings (spaces, exponents, hex) read as NaN here. The option values the select renders are decimal ids, which `TeamSelectRoundTrip` covers.
- AdminTeamPage.GetMinistryName: the branch where no ministry has that id reads an undefined `team` and throws; it is `None` here and not specified further.
- AdminTeamPage.GetMinistryVariant: a negative id's `undefined` variant is `None`; how the badge renders it is not modelled.
- StaffPage.StaffList.Replace: requires that the server's record brings a fresh qualifications array and an id that no other record has, so that the no-aliasing invariant is kept; a server that breaks this is not modelled.
- StaffPage.StaffList.Append: requires the same of a created record.
- StaffPage.StaffList.constructor: requires distinct staff ids and unshared qualifications arrays in the loaded list. `fetchData` stores whatever list the server sends, and with duplicate ids the source behaves differently: after a replace, both slots hold the same record object, and adding a qualification then pushes twice onto one array. That case is not modelled.
- UsersPage.PasswordError counts UTF-16 code units (`Text.Utf16Length`), but other lengths and offsets count characters. A Dafny `string` is a sequence of Unicode scalar values. So `substring(0, 5)` in `StaffEventPage.DateTimeField` (`Text.Prefix`) keeps five characters, not five code units. Cutting inside a surrogate pair, as JavaScript can, is not modelled.
- Success replies: a scripted success (`Ok(data)` in the dispatcher) always carries a token pair. A 2xx reply with no body is not modelled. To the refresh POST, that reply makes line 59 of lib/axiosInstance.ts throw inside the `try`, which clears the session and redirects. To the login POST, it makes `storeAuthData` throw, and the form shows its default error.
- AdminTeamPage.TeamBrowser.ViewTeamDetails: a successful fetch is assumed to return a team record. A fetch that succeeds with a null `response.data` would, in the source, show the detail view with no team selected (app/dashboard/admin/team/page.tsx:90-91). `Valid()` rules that state out, so it is not modelled.
- Missing claims: a missing `role` or `user_id` claim is the empty string in `Jwt.Claims`. For `getRoleFromToken` and `getUserIdFromToken` the two agree, since both are falsy. But `AuthService.StringifyUser` then writes `"role":""`, where `JSON.stringify` would leave an `undefined` field out. That difference in the stored text is not modelled.

## Findings

| source | as written | input that shows it | evidently intended | confidence | as-written member | corrected member |
|---|---|---|---|---|---|---|
| lib/axiosInstance.ts:47-55 | the 401 check never looks at the URL, so a refresh POST answered 401 enters the refresh path again and POSTs the refresh token again | a stored refresh token and a server that answers every call with 401: the request never settles and sends one refresh POST after another (`AsWrittenNeverSettles`, for any number n of calls) | a refresh that fails with 401 is a refresh failure: clear the session, go to `/login`, reject | not executed | Dispatcher.AsWrittenNeverSettles | Dispatcher.GuardedSettles |
