# Racing-team roster client: session and controller model

A Dafny model of the client side of a small roster manager: the session and
credential service (`AppService`), the route guard, and the decisions of the
login, member-list and member-form controllers.

- **Service** (`service.dfy`) keeps the service's state as a class: the durable
  store (`localStorage`) and the session store (`sessionStorage`), both
  `map<string, string>`, the current-user cell and the username. The storage
  transitions of `login`, `logout` and `loadStoredUser` are pure functions over
  the two stores (`AfterLogin`, `Cleared`, `AfterLoad`), and each state-changing
  method says that its new state is that function of its old state. The reads
  (`GetToken`, `IsLoggedIn`, `IsRemembered`, `GetHeaders`) delegate to `Token`,
  `LoggedIn`, `Remembered` and `BearerHeaders`. The member request wrappers
  return the request they would send, or the error they throw before sending.
  `JSON.stringify`/`JSON.parse` are a `Codec`: a pair of functions handed to
  the constructor, where parsing may fail. Round-trip lemmas require it to be
  `Lawful`.
- **Controllers** (`login.dfy`, `members.dfy`, `member_details.dfy`) are
  classes with the component's fields plus a `log` of events: each service
  call with its arguments, each router navigation, each alert and
  `stopPropagation`. The reply to each asynchronous call is a parameter:
  `Emitted(value)`, `Failed(error)`, or `Completed` (no value). The member
  form's decisions are pure functions (`FormValid`, `SubmittedMember`,
  `SubmitEvents`), and `OnSubmit` is proved to append exactly `SubmitEvents`.
  The login and member-list controllers read the real service object for
  their synchronous queries.
- **Guard** (`guard.dfy`): `canActivate` as a function of the service. The one
  navigation it may issue is returned as an event.
- **Numbers** (`numbers.dfy`): JavaScript's `Number(s)` on the route id, and the
  decimal text the router writes for an id, with `Number(String(n)) == n`.

## Behaviour as coded

These points follow the code:

- A remembered login writes the durable user, token and flag, and leaves the session store as it was.
- `loadStoredUser` switches to the session pair only when the durable *user* is missing or empty. A durable user without a durable token restores nothing.
- `getToken` uses `||`. An empty durable token therefore falls through to the session token, and an empty session token still counts as a token for `isLoggedIn`.
- `updateMember` refuses only id 0, because that is the only falsy integer. A negative id is sent. `getMemberById` and `deleteMember` refuse NaN, 0 and negative ids.
- When the existence lookup before an update finds nothing or fails, no update happens and nothing is shown.

## Model

| member | source | states |
|---|---|---|
| `Models.WithoutId` | src/app/app.service.ts:83 | stripping the id keeps every other field: putting the id back gives the member |
| `Models.DraftRoundTrip` | src/app/app.service.ts:83 | a draft given any id and stripped again is the same draft |
| `Numbers.ToNumber` | src/app/member-details/member-details.component.ts:52 | `Number(s)`: "" is 0, NaN exactly for text that is not an optionally signed decimal literal, sign of the value follows the sign character |
| `Numbers.Decimal` | src/app/members/members.component.ts:41-43 | the id text put into the route is non-empty, all digits for non-negative ids, '-'-prefixed for negative ones |
| `Numbers.DigitsValueOfDecimal` | src/app/members/members.component.ts:41-43 | the digits written for a natural number read back as that number |
| `Numbers.NumberOfDecimal` | src/app/member-details/member-details.component.ts:49-52 | `Number(String(n)) == n` for every integer id written into a route |
| `Service.Token` | src/app/app.service.ts:130-132 | the durable token when it is non-empty, otherwise the session token; absent exactly when neither exists (an empty durable token counts as none) |
| `Service.Remembered` | src/app/app.service.ts:146-148 | remembered iff the durable `rememberMe` entry is exactly "true" |
| `Service.LoggedIn` | src/app/app.service.ts:134-136 | logged in iff there is a current user and a non-empty durable token or any session token |
| `Service.ClearKeys` | src/app/app.service.ts:150-156 | `removeItem` of a set of keys: those keys gone, every other entry kept with its value |
| `Service.Cleared` | src/app/app.service.ts:150-156 | logout's storage effect: the three durable and two session keys are gone, all other entries unchanged |
| `Service.AfterLogin` | src/app/app.service.ts:113-124 | remembered: durable user, token and "true" flag written, session store untouched; not remembered: session user and token written, the three durable keys removed, other entries unchanged |
| `Service.Restore` | src/app/app.service.ts:29-43 | something is restored iff the durable user and token are both non-empty, or the durable user is empty and both session entries are non-empty; what is found is the parse of the chosen user text |
| `Service.AfterLoad` | src/app/app.service.ts:29-50 | a found user becomes current with storage unchanged; corrupt text has exactly logout's effect; otherwise nothing changes |
| `Service.InitialUsername` | src/app/app.service.ts:25-26 | as written, on the durable user text left after `loadStoredUser`: the constructor throws exactly when that text is non-empty and does not parse; no durable user gives "" |
| `Service.RestoredUsername` | src/app/app.service.ts:25-26 | corrected: agrees with the as-written name wherever that does not throw, and is "" where it would throw |
| `Service.BearerHeaders` | src/app/app.service.ts:52-58 | Authorization is "Bearer " followed by the token, or by the text "null" without one; JSON content type |
| `Service.CheckMemberId` | src/app/app.service.ts:74-76 | `!id or id <= 0` on a JS number: accepted exactly for finite ids above 0, with error 'Invalid member ID' otherwise |
| `Service.LoginRequest` | src/app/app.service.ts:107-111 | an empty username or password throws 'Username and password are required' before any request; otherwise a POST of the credentials to the login endpoint without headers |
| `Service.TokenAfterLogin` | src/app/app.service.ts:113-132 | after a login the token in effect is the reply's token, except that a remembered login with an empty token falls through to the old session token |
| `Service.RememberedAfterLogin` | src/app/app.service.ts:113-124 | after a login, `isRemembered` holds iff rememberMe was true |
| `Service.ReloadAfterLogin` | src/app/app.service.ts:29-43 | with a lawful codec and a non-empty token, reloading after either kind of login restores the same user, who is logged in |
| `Service.SessionOnlyLoginForgetsUsername` | src/app/app.service.ts:25-26 | after a session-only login the constructor's username is "", because it reads only the durable user |
| `Service.LogoutLogsOut` | src/app/app.service.ts:150-159 | after logout there is no token, nothing is remembered, nobody is logged in and a reload restores nothing |
| `Service.LogoutIdempotent` | src/app/app.service.ts:150-159 | logout's storage effect applied twice equals applying it once |
| `Service.SessionLoginForgetsDurable` | src/app/app.service.ts:117-124 | a session-only login leaves none of the three durable keys, whatever was there before, and its token is in effect |
| `Service.ConstructorThrowsAsWritten` | src/app/app.service.ts:23-50 | as written, from the initial stores: the constructor throws exactly when the durable user text is non-empty and does not parse and there is no non-empty durable token |
| `Service.CorruptUserWithoutTokenThrows` | src/app/app.service.ts:26 | durable user text that does not parse, with no durable token, is not cleared by `loadStoredUser`, and the constructor's parse of it throws |
| `Service.RestoredUsernameOfParsedUser` | src/app/app.service.ts:26 | when the durable user parses, the username is that user's name |
| `Service.AppService.constructor` | src/app/app.service.ts:23-27 | starting from no current user, the state is `AfterLoad` of the given stores; username is the (corrected) durable user's name |
| `Service.AppService.LoadStoredUser` | src/app/app.service.ts:29-50 | the current user and stores become `AfterLoad` of the old ones; username unchanged |
| `Service.AppService.Login` | src/app/app.service.ts:107-128 | empty field: throws and nothing changes; emitted reply: stores become `AfterLogin`, current user and result are the reply's user; failed or empty reply: nothing changes; username untouched |
| `Service.AppService.Logout` | src/app/app.service.ts:150-159 | stores become `Cleared` of the old ones, current user absent, username unchanged |
| `Service.AppService.SetUsername` | src/app/app.service.ts:138-140 | username becomes the argument and nothing else changes |
| `Service.AppService.GetToken` | src/app/app.service.ts:130-132 | equals `Token(Storage())`; absent exactly when the durable token is missing or empty and the session has none |
| `Service.AppService.IsLoggedIn` | src/app/app.service.ts:134-136 | equals `LoggedIn(currentUser, Storage())`: true iff there is a current user and `GetToken` is present |
| `Service.AppService.IsRemembered` | src/app/app.service.ts:146-148 | equals `Remembered(Storage())`: true iff the durable `rememberMe` entry is exactly "true" |
| `Service.AppService.GetCurrentUser` | src/app/app.service.ts:142-144 | the user the service currently holds (the value of `currentUserSubject`) |
| `Service.AppService.GetHeaders` | src/app/app.service.ts:52-58 | equals `BearerHeaders(GetToken())`: authorization is "Bearer " followed by the token, or by "null" when there is none |
| `Service.AppService.GetMemberById` | src/app/app.service.ts:73-80 | refused with 'Invalid member ID' exactly for NaN or ids below 1; otherwise a GET of that member with the bearer headers |
| `Service.AppService.AddMember` | src/app/app.service.ts:82-87 | never refused; POSTs a body that is the member without its id, with the bearer headers |
| `Service.AppService.UpdateMember` | src/app/app.service.ts:89-96 | refused with 'Invalid member data' exactly for id 0; otherwise a PUT of the whole member to its id |
| `Service.AppService.DeleteMember` | src/app/app.service.ts:98-105 | refused with 'Invalid member ID' exactly for NaN or ids below 1; otherwise a DELETE of that id |
| `Guard.CanActivate` | src/app/guards/auth.guard.ts:15-22 | allows iff there is a current user and a token; allowed means no navigation, denied means exactly one navigation to '/login' |
| `Guard.DecisionIgnoresRoute` | src/app/guards/auth.guard.ts:15 | different routes and router states give the same decision |
| `Guard.DeniedAfterLogout` | src/app/guards/auth.guard.ts:20-21 | once the stores are what logout leaves, the guard denies and redirects whatever the current user |
| `Login.ErrorText` | src/app/login/login.component.ts:42 | the server's message when it is non-empty, otherwise 'Login failed'; never empty |
| `Login.LoginEvents` | src/app/login/login.component.ts:27-46 | no events iff a field is empty; otherwise first the login call with exactly (username, password, rememberMe), then '/members' iff a value came, then `setUsername(username)` iff it did not fail; each event at most once and in that order (three events on a value, two on completion, one on failure) |
| `Login.LoginComponent.constructor` | src/app/login/login.component.ts:11-15 | the initial field values |
| `Login.LoginComponent.NgOnInit` | src/app/login/login.component.ts:19-25 | navigates to '/members' iff logged in, then prefills as `LoadRememberedUser` |
| `Login.LoginComponent.LoadRememberedUser` | src/app/login/login.component.ts:48-56 | remembered with a current user: username becomes that user's name and rememberMe true; otherwise both unchanged |
| `Login.LoginComponent.Login` | src/app/login/login.component.ts:27-46 | appends `LoginEvents`; empty field: the 'Username and password are required' message with loading unchanged; otherwise loading ends false and the message becomes `ErrorText` only on failure |
| `Members.RemoveById` | src/app/members/members.component.ts:48 | the result holds exactly the entries whose id differs, each taken from the list, and is no longer than it |
| `Members.RemoveByIdAppend` | src/app/members/members.component.ts:48 | filtering distributes over concatenation, so the kept entries keep their relative order |
| `Members.RemoveByIdAbsent` | src/app/members/members.component.ts:48 | a list with no entry of that id is returned unchanged |
| `Members.RemoveByIdIdempotent` | src/app/members/members.component.ts:48 | removing the same id twice equals removing it once |
| `Members.RemoveFirstOfTwo` | src/app/members/members.component.spec.ts:78-95 | removing id 1 from members with ids 1 and 2 leaves only the second |
| `Members.MembersComponent.constructor` | src/app/members/members.component.ts:13-20 | empty lists and log |
| `Members.MembersComponent.NgOnInit` | src/app/members/members.component.ts:22-30 | runs the user handler on the service's current user |
| `Members.MembersComponent.OnCurrentUser` | src/app/members/members.component.ts:23-29 | no user: one navigation to '/login' and no fetch; a user: one `getMembers` call, after which an emitted list replaces `members` |
| `Members.MembersComponent.GoToAddMemberForm` | src/app/members/members.component.ts:32-34 | one navigation to '/member-details' |
| `Members.MembersComponent.GetMembers` | src/app/members/members.component.ts:36-38 | one `getMembers` call; an emitted list replaces `members` wholesale |
| `Members.MembersComponent.GoToMembersDetails` | src/app/members/members.component.ts:41-43 | one navigation to ['/member-details', id] |
| `Members.MembersComponent.RemoveMember` | src/app/members/members.component.ts:45-50 | logs `stopPropagation` then `deleteMember(id)`; throws iff id < 1; the list becomes `RemoveById` of the old list only if the delete was accepted and emitted |
| `MemberDetails.Utf16Length` | src/app/member-details/member-details.component.ts:39-40 | the JavaScript `length` used by `minLength`: between the character count and twice it, zero only for "" |
| `MemberDetails.Utf16LengthOfBmp` | src/app/member-details/member-details.component.ts:39-40 | for text without characters beyond U+FFFF the UTF-16 length is the character count |
| `MemberDetails.FormValid` | src/app/member-details/member-details.component.ts:37-44 | valid iff first and last name have UTF-16 length at least 2 and job title and team are non-empty; id and status are unconstrained |
| `MemberDetails.AstralNameValid` | src/app/member-details/member-details.component.ts:39 | a first name of one character beyond U+FFFF (a surrogate pair) passes `minLength(2)`, while a one-letter name does not |
| `MemberDetails.InitialFormInvalid` | src/app/member-details/member-details.component.ts:37-44 | the fresh form is invalid and its status is 'Inactive' |
| `MemberDetails.SubmittedMember` | src/app/member-details/member-details.component.ts:79-86 | id is positive iff the form id is; a null id becomes 0; a non-zero id is the form's; all other fields copied |
| `MemberDetails.Patched` | src/app/member-details/member-details.component.ts:56-63 | submitting a form patched with a member yields that member |
| `MemberDetails.WriteOutcome` | src/app/member-details/member-details.component.ts:92-117 | a value navigates to '/members', an error alerts the given message, completion does nothing |
| `MemberDetails.SubmitEvents` | src/app/member-details/member-details.component.ts:72-121 | invalid form: no events; id > 0: lookup first, update iff the lookup found a member; otherwise add and never update; '/members' iff the write emitted on a taken path; 'Failed to update member' or 'Failed to add member' iff that write failed; the lookup iff id > 0, the update second after it, and the write's outcome last; the number of events per branch is fixed, so each occurs once and no other events occur |
| `MemberDetails.EditRouteRoundTrip` | src/app/member-details/member-details.component.ts:49-52 | an id above 0 written into the route reads back as that id and passes the lookup check |
| `MemberDetails.CreateScenario` | src/app/member-details/member-details.component.spec.ts:94-114 | creating Bob Jones (QA, Engineering): one add with id 0, then '/members' |
| `MemberDetails.FailedLookupStopsUpdate` | src/app/member-details/member-details.component.ts:88-104 | editing id 1 with a failed lookup: the lookup is the only event |
| `MemberDetails.MemberDetailsComponent.constructor` | src/app/member-details/member-details.component.ts:23-25 | no teams, create mode, empty log; `memberForm` is left unassigned by the source (`memberForm!`), so the model starts it as the form `ngOnInit` builds at lines 37-44, which `NgOnInit` assigns again |
| `MemberDetails.MemberDetailsComponent.NgOnInit` | src/app/member-details/member-details.component.ts:35-67 | always requests the teams and takes an emitted list; edit mode iff the route id is non-empty, then fetches `Number(id)`, throws iff that fails the id check, and patches the form with a found member |
| `MemberDetails.MemberDetailsComponent.OnSubmit` | src/app/member-details/member-details.component.ts:72-121 | appends exactly `SubmitEvents` of the current form and replies; changes nothing else |
| `MemberDetails.MemberDetailsComponent.GoToMemberList` | src/app/member-details/member-details.component.ts:123-125 | one navigation to '/members' |
| `MemberDetails.MemberDetailsComponent.HandleError` | src/app/member-details/member-details.component.ts:127-129 | one alert with the message |

## Left out

- HTTP transport and timing: each request is modelled only as the request value it would send. Its outcome is a `Reply` parameter delivered at once. Asynchrony, stale replies after a view is torn down, and changes from other tabs are not modelled.
- `getMembers` and `getTeamList` in the service: these are plain GET requests with no checks. Their `retry(5)` and other retry timing are not modelled. The controllers see only their replies.
- `handleError` in the service (`catchError` returning `[]`): it turns every HTTP failure of `getMemberById`, `addMember`, `updateMember`, `deleteMember`, `getMembers` and `getTeamList` into completion without a value. It is modelled only as the `Completed` reply. So with the service as written these six requests never deliver `Failed`, and the alerts 'Failed to update member' and 'Failed to add member' (member-details.component.ts:99, 114) and the other error callbacks are reached only when the service is replaced by one that fails, as the component tests do with `throwError`. Only `login` delivers `Failed`, because it has no `catchError` (app.service.ts:107-128). The controllers' error paths are modelled for a `Failed` reply all the same.
- The `currentUser$` broadcast: subscribers are not modelled. `MembersComponent.OnCurrentUser` is the handler, and it is given each broadcast value.
- The login controller's call into the service is logged, not executed. Its effect on the stores is that of `Service.AppService.Login`.
- Login.LoginComponent.Login: `loading` is true only while the request is in flight. The model delivers the reply at once, so the contract states only the final `loading`, after the service call has been logged.
- JSON: the text format is not modelled, and the codec is treated as opaque. `JSON.parse` yielding `null` or a non-user value (for example the stored text "null") is not modelled. Parsing either yields a user or fails.
- Numbers.ToNumber handles only the empty string and optionally signed decimal digits. Surrounding whitespace, fractions, exponents, hex literals and `Infinity` all read as NaN here, although `Number` accepts them.
- Numbers.ToNumber: member ids are exact unbounded integers here, not doubles. JavaScript rounds a digit string above 2^53 to the nearest double (so "9007199254740993" becomes 9007199254740992), and reads one above about 1.8e308 as `Infinity`, which passes `!id || id <= 0`. Neither rounding nor `Infinity` is modelled, so `Numbers.NumberOfDecimal` and `MemberDetails.EditRouteRoundTrip` hold here for every integer, where in JavaScript they hold for safe integers (below 2^53 in magnitude).
- Numbers.Decimal: writes every integer in decimal digits. JavaScript's `String(n)` switches to exponent text ("1e+21") from 1e21 in magnitude, and ids above 2^53 are not exact JavaScript numbers. Neither is modelled.
- `console` logging, the `api` base URL and the `DEBUG` switch are not modelled. Endpoints are abstract (`LoginEndpoint`, `MemberEndpoint(id)`, `AddMemberEndpoint`).
- Angular `FormBuilder`, dependency injection and template bindings are not modelled. The form is a record plus a validity function. `ngOnChanges` is empty and is not modelled.
- Member `status` is a string, as the code types it. The `shared/models` file and the fields of `Team` are not part of this model.
- `MembersComponent.teams` is declared but never assigned. It is kept as a field only.
- `server.js`, the banner component and the test files are not part of this model. The test files were used only as evidence for the scenario lemmas.

## Findings

| source | as written | input that shows it | evidently intended | confidence | as-written member | corrected member |
|---|---|---|---|---|---|---|
| src/app/app.service.ts:26 | the constructor runs `JSON.parse` on the durable `currentUser` unguarded; `loadStoredUser` clears corrupt text only when a durable token is also present | `localStorage` = {currentUser: "garbage"}, no `token`: `loadStoredUser` restores nothing and does not log out, then the constructor's `JSON.parse("garbage")` throws | corrupt stored user data is treated like a logged-out state and the username is "" | medium, not executed | `Service.CorruptUserWithoutTokenThrows` (with `Service.InitialUsername`) | `Service.RestoredUsername` |
