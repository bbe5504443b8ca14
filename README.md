# Admin panel access control and screen state, in Dafny

This project models the core of a React admin panel for a college-fest platform. It covers these parts:

- **Session handling**: the JWT kept in `localStorage` under `accessToken`, its expiry check, and logout.
- **Route guard**: `ProtectedRoute`, which sends a visitor to `/sign-in`, to `/404`, or renders the page, by token and role.
- **Idle-logout hook**: `useAuth` logs out at once or arms a timer for the token's expiry.
- **Axios wrapper**: `withAuth`, the request interceptor that injects `Authorization: Bearer …` and strips the panel's `authRequired` flag, the response interceptor that evicts a storage key on authentication errors, and the five verb helpers.
- **Route table and menu**: the table with its role lists, and the side menu that mirrors it.
- **Screen handlers**: the state machines behind sign-in, the account popover, cities, the city modal, approvals, categories, the category modal, events, the profile and the MOU table.

Each source file takes its own form:

- Pure code becomes datatypes and functions.
- A component's `useState` variables become the fields of a `class`, and its handlers become methods with `modifies` clauses.
- A handler that awaits a request is split at the `await` into `Begin…`, which returns the request as a `Http.Call` value, and `Finish…`, which takes the settled `Http.Response`.
- `localStorage` is a `map<string, string>` inside `Storage.LocalStorage`.
- Time is an integer millisecond count `nowMs`.
- `atob` + `JSON.parse` of the token's claims is an uninterpreted parameter `decode: string -> Option<Claims>`.
- Redirects, router pushes, armed timers and parent callbacks are returned as values.

The model follows the code as written, including these behaviours:

- The error interceptor removes the key `token`, while the session lives under `accessToken`. So an authentication failure leaves the session in place (`ApiClient.AfterError`, `ApiClient.SentinelRemovesStaleKeyOnly`).
- Decoding reads only the second dot-segment and does not check the segment count (`Auth.PayloadIgnoresOtherSegments`).
- `useAuth` keeps no timer handle and never cancels the timer (`UseAuth.Mount` only appends to `UseAuth.Timers.pending`).
- The popover's logout goes to `/login`. No route has that path, so it shows the not-found page (`AccountPopover.PopoverLogoutLandsOnNotFound`).

## Model

| member | source | states |
|---|---|---|
| Strings.ContainsIff | src/sections/city/view/city-view.tsx:81-83 | `includes` holds exactly when the text occurs at some index |
| Strings.ContainsAt | src/sections/city/view/city-view.tsx:81-83 | an occurrence at any index makes `includes` true |
| Strings.ContainsWitness | src/sections/city/view/city-view.tsx:81-83 | `includes` yields an index at which the text occurs |
| Strings.ContainsEmpty | src/sections/city/view/city-view.tsx:81-83 | every text includes the empty text |
| Strings.LowerChar | src/api/apiClient.ts:102 | ASCII upper-case letters map to lower case; every other character is unchanged |
| Strings.UpperChar | src/layouts/components/account-popover.tsx:77 | ASCII lower-case letters map to upper case; every other character is unchanged |
| Strings.ToLower | src/api/apiClient.ts:102 | same length, lowered character by character |
| Strings.ToUpper | src/layouts/components/account-popover.tsx:77 | same length, raised character by character |
| Strings.ToLowerIdempotent | src/sections/city/view/city-view.tsx:81-83 | lowering twice is lowering once |
| Strings.TrimStart | src/sections/approvals/approvals-view.tsx:232 | the result is a suffix that starts with a non-space; everything dropped is whitespace |
| Strings.TrimEnd | src/sections/approvals/approvals-view.tsx:232 | the result is a prefix that ends with a non-space; everything dropped is whitespace |
| Strings.TrimEmptyIff | src/sections/approvals/approvals-view.tsx:232 | trimming gives the empty text exactly when every character is JavaScript whitespace |
| Strings.Split | src/auth/auth.ts:13 | `split` always gives at least one part |
| Strings.JoinSplit | src/auth/auth.ts:13 | joining the parts with the separator gives the text back |
| Strings.SplitPartsFree | src/auth/auth.ts:13 | no part contains the separator |
| Strings.SplitNoSeparator | src/auth/auth.ts:13 | a text without the separator splits into itself alone |
| Strings.SplitAtFirst | src/auth/auth.ts:13 | the first part ends at the first separator and the rest splits on its own |
| Strings.SplitCount | src/auth/auth.ts:13 | there are two or more parts exactly when the separator occurs |
| Strings.OrElse | src/sections/auth/sign-in-view.tsx:56 | `a \|\| b` on an optional text: a truthy value is kept, otherwise the fallback is used |
| Seqs.Filter | src/sections/approvals/approvals-view.tsx:73 | `filter` keeps only passing elements, drops none that pass, and never grows |
| Seqs.FilterIsSubsequence | src/sections/city/view/city-view.tsx:80 | the kept elements stay in their original order |
| Seqs.FilterAppend | src/sections/city/view/city-view.tsx:80 | filtering a concatenation filters each half |
| Seqs.FilterAllKept | src/sections/approvals/approvals-view.tsx:73 | if every element passes, nothing changes |
| Seqs.FilterPartition | src/sections/city/view/city-view.tsx:85-88 | two disjoint predicates whose union is `p` split `p`'s result as a multiset and by length |
| Seqs.FilterCongruent | src/sections/city/view/city-view.tsx:80-90 | predicates that agree on the elements filter alike |
| Storage.Lookup | src/auth/auth.ts:3 | `getItem` gives the stored value, or none for a missing key |
| Storage.LocalStorage.constructor | src/auth/auth.ts:3 | a storage starts with the given entries |
| Storage.LocalStorage.GetItem | src/auth/auth.ts:3 | reading a key gives its lookup and changes nothing |
| Storage.LocalStorage.SetItem | src/sections/auth/sign-in-view.tsx:49 | `setItem` sets exactly that key |
| Storage.LocalStorage.RemoveItem | src/auth/auth.ts:6-7 | `removeItem` removes exactly that key |
| Storage.LocalStorage.Clear | src/layouts/components/account-popover.tsx:133 | `clear` empties storage |
| Endpoints.GetSubcategoryByCategory | src/api/endpoint.ts:12 | the path is `admin/get-sub-category/` followed by exactly the id |
| Endpoints.EditCity | src/api/endpoint.ts:13 | the path is `admin/edit-city/` followed by exactly the id |
| Endpoints.BuildersInjective | src/api/endpoint.ts:12-13 | each builder gives different paths for different ids |
| Endpoints.BuildersDisjoint | src/api/endpoint.ts:12-13 | the two builders never produce the same path |
| Endpoints.StaticEndpointsUnderAdmin | src/api/endpoint.ts:7-11 | every fixed endpoint begins with `admin/` |
| Auth.SecondSegment | src/auth/auth.ts:13 | a second segment exists exactly when the token has a dot, and it contains no dot |
| Auth.SessionClaims | src/auth/auth.ts:19-23 | a usable session has decoded claims with a nonzero `exp` no earlier than now |
| Auth.PayloadIgnoresOtherSegments | src/auth/auth.ts:11-17 | the payload is the decoding of the second segment, with two segments or with any number above two |
| Auth.NoDotIsExpired | src/auth/auth.ts:13-21 | a token without a dot has no payload and counts as expired |
| Auth.ExpiredWithoutExp | src/auth/auth.ts:21 | a missing payload, a missing `exp` or `exp = 0` counts as expired (fail closed) |
| Auth.ExpiredIff | src/auth/auth.ts:22 | with an `exp`, expired exactly when `exp*1000 < now`; the boundary instant is still valid |
| Auth.ExpiryMonotone | src/auth/auth.ts:19-23 | once expired, a token stays expired |
| Auth.GetToken | src/auth/auth.ts:3 | the token is the `accessToken` entry |
| Auth.AfterLogout | src/auth/auth.ts:5-9 | both session keys are gone and every other key is kept |
| Auth.LogoutIdempotent | src/auth/auth.ts:5-9 | logging out twice is logging out once |
| Auth.Logout | src/auth/auth.ts:5-9 | storage becomes exactly the logged-out storage, and the browser goes to `/sign-in` |
| ProtectedRoute.Guard | src/auth/ProtectedRoute.tsx:18-40 | sign-in iff there is no usable session; render iff the session is usable and the roles are absent or list its role; otherwise `/404` with the location |
| ProtectedRoute.NullPayloadUnreachable | src/auth/ProtectedRoute.tsx:25-30 | after the expiry check passes, the payload is never null |
| ProtectedRoute.NoSessionGoesToSignIn | src/auth/ProtectedRoute.tsx:21-23 | a missing, empty or expired token goes to `/sign-in` whatever the roles |
| ProtectedRoute.WrongRoleGoesToNotFound | src/auth/ProtectedRoute.tsx:33-38 | a usable session whose role is not listed goes to `/404`, carrying the location |
| ProtectedRoute.NoRolesAdmitsEverySession | src/auth/ProtectedRoute.tsx:33-40 | without `allowedRoles`, every usable session renders |
| ProtectedRoute.EmptyRolesRejectAll | src/auth/ProtectedRoute.tsx:33-38 | an empty role list renders for nobody |
| ProtectedRoute.RoleTwoRejected | src/auth/ProtectedRoute.tsx:33-38 | role 2 is refused by `[1, 3]` |
| UseAuth.Plan | src/auth/useAuth.ts:9-19 | with the clock read once for the expiry test and once for the delay: log out now iff there is no usable session at the first reading; otherwise the delay counted from the second reading ends exactly at `exp*1000` |
| UseAuth.SameInstantDelayNonNegative | src/auth/useAuth.ts:9-15 | when both clock readings coincide, an armed delay is never negative |
| UseAuth.LaterReadingNegativeDelay | src/auth/useAuth.ts:9-15 | a token expiring exactly at the first reading passes the strict test, and a later second reading gives a negative delay |
| UseAuth.Timers.constructor | src/auth/useAuth.ts:17-19 | no timer is pending at first |
| UseAuth.Timers.SetTimeout | src/auth/useAuth.ts:17-19 | arming appends a timer and keeps the others (there is no handle to cancel) |
| UseAuth.Mount | src/auth/useAuth.ts:6-20 | the effect takes the plan for the stored token and both clock readings; logging out clears the session and arms nothing; arming leaves storage alone and adds one timer |
| UseAuth.TimerDueAtExpiry | src/auth/useAuth.ts:14-15 | for a usable session the timer fires at the token's expiry instant |
| ApiClient.WithAuth | src/api/apiClient.ts:39-53 | without a token the config is unchanged; with one, `Authorization` is `Bearer <token>` and every other header, the flag and the other options are kept |
| ApiClient.FinalConfig | src/api/apiClient.ts:121-177 | the verb helpers call `withAuth` only when `authRequired` is set, and pass the config through otherwise |
| ApiClient.Intercepted | src/api/apiClient.ts:63-75 | with the flag: the header is set if a token is stored and the flag is removed; without it the config is unchanged |
| ApiClient.RequestConfig.constructor | src/api/apiClient.ts:59-62 | the mutable config starts as the given config |
| ApiClient.RequestConfig.InterceptRequest | src/api/apiClient.ts:63-75 | the in-place mutation leaves the config equal to the interceptor function of the old config and the stored token |
| ApiClient.OutgoingRequest | src/api/apiClient.ts:39-75 | what reaches the transport: the header comes from the stored token only when flagged, a set flag is deleted while `authRequired: false` stays in the config, and other headers and options are untouched |
| ApiClient.AuthorizationAgrees | src/api/apiClient.ts:44-68 | for a flagged request, `withAuth` and the interceptor set the same header value |
| ApiClient.Dispatch | src/api/apiClient.ts:121-177 | a helper sends the call unchanged except for its config, which is the outgoing config |
| ApiClient.AfterError | src/api/apiClient.ts:84-115 | an error either leaves storage alone or removes only `token`; `accessToken` never changes; `Permission denied` changes nothing; the two sentinel messages always evict |
| ApiClient.OnResponse | src/api/apiClient.ts:84-115 | a success passes through untouched; a failure is rejected unchanged after the storage update |
| ApiClient.PermissionDeniedFirst | src/api/apiClient.ts:89-92 | `Permission denied` changes nothing, whatever the status |
| ApiClient.SentinelRemovesStaleKeyOnly | src/api/apiClient.ts:94-98 | `Token missing` and `Invalid Token` remove `token` and nothing else, whatever the status |
| ApiClient.UnauthorizedNeedsStatus401 | src/api/apiClient.ts:100-111 | any other message mentioning an auth failure, in any ASCII case, evicts only with status 401 |
| ApiClient.UnauthorizedAccessExample | src/api/apiClient.ts:100-111 | `Unauthorized access` with 401 evicts `token` |
| ApiClient.NoResponseKeepsStorage | src/api/apiClient.ts:84-113 | a transport failure without a response changes nothing |
| ApiClient.OtherErrorsKeepStorage | src/api/apiClient.ts:94-113 | every error other than the two sentinels, and other than a 401 mentioning an auth failure, leaves storage unchanged |
| ApiClient.EvictionIff | src/api/apiClient.ts:87-111 | with `token` stored, it is removed exactly when the message is not `Permission denied` and is a sentinel or a 401 mentioning an auth failure |
| Routes.MatchIn | src/routes/sections.tsx:46-130 | the match is a table entry with that exact path, or the `*` fallback when no entry has it |
| Routes.RunGuards | src/routes/sections.tsx:47-110 | nested guards render only if every guard renders, and then the session is usable |
| Routes.GuardLayout | src/routes/sections.tsx:47-127 | dashboard pages sit under an outer guard without roles and an inner guard with their roles; the other pages have no guard |
| Routes.MatchInEntry | src/routes/sections.tsx:46-130 | with distinct paths, each entry's path matches that entry |
| Routes.RoutePathsDistinct | src/routes/sections.tsx:59-127 | no two routes share a path |
| Routes.MatchEntry | src/routes/sections.tsx:59-127 | every route's path matches its own entry |
| Routes.TwoGuards | src/routes/sections.tsx:47-66 | the two nested guards send a visitor without a session to sign-in, a listed role to the page, and any other role to `/404` |
| Routes.NavigateDashboard | src/routes/sections.tsx:47-110 | the outcome of navigating to any dashboard path, by session and role |
| Routes.RouteRoles | src/routes/sections.tsx:59-110 | `/` and `/events` admit `[1, 3]`; `/category`, `/user`, `/approvals` and `/city` admit `[1]` |
| Routes.DashboardNeedsSession | src/routes/sections.tsx:47-56 | a dashboard page is shown only over a usable session |
| Routes.NoSessionRedirectsToSignIn | src/routes/sections.tsx:49 | without a session every dashboard path goes to `/sign-in` |
| Routes.PublicPaths | src/routes/sections.tsx:115-129 | `/sign-in` and `/404` show for anyone, and an unknown path shows the not-found page |
| Routes.LoginIsNotFound | src/routes/sections.tsx:129 | `/login` shows the not-found page |
| Routes.OrganizerReach | src/routes/sections.tsx:59-110 | role 3 reaches exactly the dashboard and the events page |
| Routes.AdminReach | src/routes/sections.tsx:59-110 | role 1 reaches every dashboard page |
| Routes.OtherRolesReachNothing | src/routes/sections.tsx:59-110 | any other or missing role is sent to `/404` from every dashboard page |
| Routes.RedirectsLandOnPublicPages | src/routes/sections.tsx:115-127 | every redirect targets `/sign-in` or `/404`, which always show, so redirects never chain |
| NavConfig.InnermostRoles | src/routes/sections.tsx:62-106 | a route without guards has no role list |
| NavConfig.NavItemMirrorsRoute | src/layouts/nav-config-dashboard.tsx:19-60 | each menu item with roles links to a dashboard route whose guard has the same roles |
| NavConfig.NavMirrorsRoutes | src/layouts/nav-config-dashboard.tsx:19-60 | the menu's role lists equal the routes' `allowedRoles` for every menu path |
| NavConfig.RoutesHaveNavItems | src/layouts/nav-config-dashboard.tsx:19-60 | every dashboard route has a menu item with the same path and roles |
| NavConfig.LogoutItem | src/layouts/nav-config-dashboard.tsx:61-66 | Logout is the only item without roles and the only one with an action; its path is `#` |
| NavConfig.RunOnClick | src/layouts/nav-config-dashboard.tsx:65 | the Logout action performs `logout`; other items do nothing |
| SignIn.Stored | src/sections/auth/sign-in-view.tsx:49-52 | a missing value is stored as the text `undefined` |
| SignIn.LoginCall | src/sections/auth/sign-in-view.tsx:43-46 | the login is a POST of email and password without `authRequired` or headers |
| SignIn.SessionWrites | src/sections/auth/sign-in-view.tsx:49-52 | a login writes the token and the user keys and keeps every other key |
| SignIn.SignInView.constructor | src/sections/auth/sign-in-view.tsx:23-28 | empty fields, not loading, no error |
| SignIn.SignInView.ChangeEmail | src/sections/auth/sign-in-view.tsx:93 | only the email changes |
| SignIn.SignInView.ChangePassword | src/sections/auth/sign-in-view.tsx:103 | only the password changes |
| SignIn.SignInView.BeginLogin | src/sections/auth/sign-in-view.tsx:34-46 | an empty field sets the required-fields error and sends nothing; otherwise loading starts, the error clears and the login call goes out |
| SignIn.SignInView.FinishLogin | src/sections/auth/sign-in-view.tsx:48-58 | on success, the session writes, then a push to `/`; on failure, storage is untouched and the error is the message or `Login failed`; loading ends either way |
| SignIn.LoginReachesDashboard | src/sections/auth/sign-in-view.tsx:49-54 | a usable token for role 1 or 3 lands on the dashboard |
| SignIn.MissingTokenBouncesToSignIn | src/sections/auth/sign-in-view.tsx:49 | a success without a token stores `undefined`, and the dashboard redirects to sign-in |
| AccountPopover.CurrentUser | src/layouts/components/account-popover.tsx:38-41 | a missing or empty user entry gives no user; otherwise the parse of it |
| AccountPopover.Avatar | src/layouts/components/account-popover.tsx:43-47 | image present iff truthy; an `http` image is used verbatim; another is prefixed with the image base URL |
| AccountPopover.Initial | src/layouts/components/account-popover.tsx:77 | the fallback is the upper-cased first character of the name; an empty name gives an empty text, and no name gives none |
| AccountPopover.Selection | src/layouts/components/account-popover.tsx:115 | an entry is highlighted iff its link equals the path |
| AccountPopover.SelectionAtMostOne | src/layouts/components/account-popover.tsx:115 | with distinct links, at most one entry is highlighted |
| AccountPopover.Popover.constructor | src/layouts/components/account-popover.tsx:36 | the popover starts closed |
| AccountPopover.Popover.Open | src/layouts/components/account-popover.tsx:49-51 | opening it |
| AccountPopover.Popover.Close | src/layouts/components/account-popover.tsx:53-55 | closing it |
| AccountPopover.Popover.ClickItem | src/layouts/components/account-popover.tsx:57-60 | choosing an entry closes the popover and pushes its link |
| AccountPopover.Popover.Logout | src/layouts/components/account-popover.tsx:132-135 | logout empties storage and replaces the route with `/login` |
| AccountPopover.PopoverLogoutLandsOnNotFound | src/layouts/components/account-popover.tsx:132-135 | after the popover's logout there is no token, and `/login` matches only the route table's `*` entry, so the not-found page shows rather than sign-in |
| AccountPopover.PopoverLogoutVersusLogout | src/layouts/components/account-popover.tsx:132-135 | `localStorage.clear()` here and `logout()` in src/auth/auth.ts leave the same storage iff only the two session keys were stored |
| CityView.FilteredCities | src/sections/city/view/city-view.tsx:78-93 | a city is shown iff its lower-cased name includes the lower-cased search and its status passes; shown cities come from the list |
| CityView.FilteredIsSubsequence | src/sections/city/view/city-view.tsx:80 | the filtered list keeps the list's order |
| CityView.StatusPartition | src/sections/city/view/city-view.tsx:85-88 | for one search, the active and inactive results together are exactly the `all` result |
| CityView.EmptySearch | src/sections/city/view/city-view.tsx:81-88 | an empty search applies only the status filter, and `all` with it keeps everything |
| CityView.ChipLabel | src/sections/city/view/city-view.tsx:118-124 | `Updating...` iff the row is the one being toggled; otherwise `Active` iff active |
| CityView.ToggleCall | src/sections/city/view/city-view.tsx:62-66 | the toggle posts the inverted flag to the row's edit path with auth |
| CityView.CityScreen.constructor | src/sections/city/view/city-view.tsx:24-34 | the initial screen state |
| CityView.CityScreen.BeginLoad | src/sections/city/view/city-view.tsx:39-42 | the load starts and issues `GET_CITY` with auth |
| CityView.CityScreen.FinishLoad | src/sections/city/view/city-view.tsx:43-46 | a success replaces the list with the data or `[]`; a failure keeps it; loading ends |
| CityView.CityScreen.BeginToggle | src/sections/city/view/city-view.tsx:56-66 | nothing happens while a toggle is in flight; otherwise the row's id is marked and the toggle call goes out |
| CityView.CityScreen.FinishToggle | src/sections/city/view/city-view.tsx:68-72 | a success sets the message or `Status updated` and reloads; the in-flight id is cleared either way |
| CityView.CityScreen.SetSearch | src/sections/city/view/city-view.tsx:177 | only the search changes, and the visible rows become the list filtered by the new search |
| CityView.CityScreen.SetStatus | src/sections/city/view/city-view.tsx:185 | only the status filter changes, and the visible rows become the list filtered by the new status |
| CityView.CityScreen.OpenModal | src/sections/city/view/city-view.tsx:136-158 | Edit selects the row and opens the modal; New City opens it |
| CityView.CityScreen.CloseModal | src/sections/city/view/city-view.tsx:209-210 | closing clears the selection |
| CityView.CityScreen.ModalSuccess | src/sections/city/view/city-view.tsx:213-214 | the modal's message becomes the alert and the list reloads |
| CityView.CityScreen.DismissAlert | src/sections/city/view/city-view.tsx:222 | the alert clears |
| CityView.TwoTogglesOneRequest | src/sections/city/view/city-view.tsx:57 | a second toggle while the first is in flight sends nothing |
| Forms.Names | src/sections/category/category-add-modal.tsx:42 | the form's field names in entry order |
| Forms.FieldOf | src/sections/city/city-add-modal.tsx:59 | a field is found exactly when its name is in the form |
| Forms.FieldOfIndex | src/sections/city/city-add-modal.tsx:59 | the first entry with a name is the one found |
| Forms.FieldsByName | src/sections/city/city-add-modal.tsx:29-35 | in a form without repeated names, every entry is found by its name |
| Forms.SetFieldReads | src/sections/city/city-add-modal.tsx:59 | after `{...p, [name]: v}` the field reads back as `v` |
| Forms.SetFieldKeeps | src/sections/city/city-add-modal.tsx:59 | every other field keeps its value |
| Forms.SetFieldNamesExisting | src/sections/city/city-add-modal.tsx:59 | setting an existing field keeps the field order |
| Forms.SetFieldNamesNew | src/sections/city/city-add-modal.tsx:59 | setting a new field appends its name after the others |
| Forms.EventValue | src/sections/city/city-add-modal.tsx:58-59 | a checkbox writes `checked`; any other input writes `value` |
| Forms.Stringify | src/sections/category/category-add-modal.tsx:42 | `String(v)`: texts unchanged, booleans `true`/`false` |
| Forms.JsonBody | src/sections/city/city-add-modal.tsx:68-78 | the form object is sent field by field in order |
| Forms.FormData.constructor | src/sections/category/category-add-modal.tsx:41 | a fresh `FormData` is empty |
| Forms.FormData.Append | src/sections/category/category-add-modal.tsx:42-43 | `append` adds one entry at the end |
| CityAddModal.FilledForm | src/sections/city/city-add-modal.tsx:38-45 | falsy texts become `''`; `is_active` stays `false` when it is false, and only a missing value becomes `true` |
| CityAddModal.BlankCityFillsEmptyForm | src/sections/city/city-add-modal.tsx:38-54 | a city with no fields fills the same form as no city |
| CityAddModal.SubmitCall | src/sections/city/city-add-modal.tsx:67-79 | editing posts the form to the city's edit path, creating posts to `ADD_CITY`, both with auth |
| CityAddModal.CityModal.constructor | src/sections/city/city-add-modal.tsx:27-35 | the initial form and loading state |
| CityAddModal.CityModal.SyncCity | src/sections/city/city-add-modal.tsx:37-55 | with a city the form is filled from it; without one it is reset |
| CityAddModal.CityModal.Change | src/sections/city/city-add-modal.tsx:57-60 | only the named field changes |
| CityAddModal.CityModal.BeginSubmit | src/sections/city/city-add-modal.tsx:62-79 | loading starts and the edit-or-add call goes out |
| CityAddModal.CityModal.FinishSubmit | src/sections/city/city-add-modal.tsx:81-85 | on success, `onSuccess` gets the message or `City saved`, then `onClose` runs; loading ends either way |
| CategoryAddModal.InitialCategoryFormFields | src/sections/category/category-add-modal.tsx:25-30 | the initial form has empty texts, `isActive` true and `isFeatured` false |
| CategoryAddModal.BuildFormData | src/sections/category/category-add-modal.tsx:41-43 | the loop appends every field stringified, in order, then the icon under `image` iff one was chosen |
| CategoryAddModal.ImagePartIffIcon | src/sections/category/category-add-modal.tsx:43 | an `image` part exists exactly when an icon was chosen |
| CategoryAddModal.InitialFlagsStringified | src/sections/category/category-add-modal.tsx:42 | the initial flags are sent as `true` and `false` |
| CategoryAddModal.CategoryModal.constructor | src/sections/category/category-add-modal.tsx:22-30 | the initial form, no icon, not loading |
| CategoryAddModal.CategoryModal.Change | src/sections/category/category-add-modal.tsx:32-35 | only the named field changes; switches write `checked` |
| CategoryAddModal.CategoryModal.ChooseIcon | src/sections/category/category-add-modal.tsx:86 | the chosen file, or none, becomes the icon |
| CategoryAddModal.CategoryModal.BeginSubmit | src/sections/category/category-add-modal.tsx:37-48 | a multipart POST to `ADD_CATEGORY` with auth and the multipart header, carrying the built `FormData` |
| CategoryAddModal.CategoryModal.FinishSubmit | src/sections/category/category-add-modal.tsx:50-53 | on success, `onSuccess` gets the message or `Category added`, then `onClose` runs; loading ends either way |
| ApprovalsView.StatusColor | src/sections/approvals/approvals-view.tsx:153 | approved is success, rejected is error, anything else is warning |
| ApprovalsView.RemoveById | src/sections/approvals/approvals-view.tsx:73 | the rows with that id go; every other row stays |
| ApprovalsView.RemoveByIdKeepsOrder | src/sections/approvals/approvals-view.tsx:73 | the remaining rows keep their order, and an absent id changes nothing |
| ApprovalsView.RemoveByIdIdempotent | src/sections/approvals/approvals-view.tsx:73 | removing an id twice is removing it once |
| ApprovalsView.RejectDisabled | src/sections/approvals/approvals-view.tsx:232 | Reject is disabled exactly while the reason is all whitespace |
| ApprovalsView.ButtonsDisabled | src/sections/approvals/approvals-view.tsx:171-181 | a row's buttons are disabled exactly while its id is being processed |
| ApprovalsView.ApproveCall | src/sections/approvals/approvals-view.tsx:64-71 | the approve action is posted with the id and `approved` |
| ApprovalsView.RejectCall | src/sections/approvals/approvals-view.tsx:97-105 | the reject action is posted with the id, `rejected` and the reason |
| ApprovalsView.ApprovalsScreen.constructor | src/sections/approvals/approvals-view.tsx:23-32 | the initial screen state |
| ApprovalsView.ApprovalsScreen.BeginLoad | src/sections/approvals/approvals-view.tsx:39-45 | the load starts and issues the organiser request list call |
| ApprovalsView.ApprovalsScreen.FinishLoad | src/sections/approvals/approvals-view.tsx:47-50 | a success replaces the list with the data or `[]`; a failure keeps it |
| ApprovalsView.ApprovalsScreen.BeginApprove | src/sections/approvals/approvals-view.tsx:60-71 | the id is marked as processing and the approve call goes out |
| ApprovalsView.ApprovalsScreen.FinishApprove | src/sections/approvals/approvals-view.tsx:73-76 | only a success removes the rows; the processing id clears either way |
| ApprovalsView.ApprovalsScreen.OpenRejectModal | src/sections/approvals/approvals-view.tsx:82-86 | selects the row, empties the reason and opens the dialog |
| ApprovalsView.ApprovalsScreen.SetRejectReason | src/sections/approvals/approvals-view.tsx:222 | only the reason changes |
| ApprovalsView.ApprovalsScreen.CloseRejectModal | src/sections/approvals/approvals-view.tsx:211-227 | cancelling only closes; the selection and the reason remain |
| ApprovalsView.ApprovalsScreen.BeginReject | src/sections/approvals/approvals-view.tsx:91-105 | nothing happens without a selection; otherwise the selected id is marked and the reject call goes out |
| ApprovalsView.ApprovalsScreen.FinishReject | src/sections/approvals/approvals-view.tsx:107-114 | on success the row goes and the dialog state resets; on failure the list and dialog are unchanged; the processing id clears either way |
| ApprovalsView.ApproveScenario | src/sections/approvals/approvals-view.tsx:60-77 | approving a shown row removes it on success, keeps the list on failure, and re-enables the buttons |
| CategoryView.ShownTable | src/sections/category/category-view.tsx:194-195 | columns and data come as the category pair in category mode and the subcategory pair otherwise |
| CategoryView.AddButtons | src/sections/category/category-view.tsx:154-174 | exactly one add button: New Category in category mode, New Sub Category otherwise |
| CategoryView.Header | src/sections/category/category-view.tsx:149-151 | `Categories`, or `Sub Categories of ` plus the active name |
| CategoryView.HeadersDiffer | src/sections/category/category-view.tsx:149-151 | the two headers never coincide |
| CategoryView.SubLoadCall | src/sections/category/category-view.tsx:56-59 | the subcategory load fetches the category's path with auth |
| CategoryView.CategoryScreen.constructor | src/sections/category/category-view.tsx:23-31 | category mode with empty lists, and the mode invariant holds |
| CategoryView.CategoryScreen.BeginLoadCategories | src/sections/category/category-view.tsx:38-41 | the load starts and issues `GET_CATEGORY` with auth |
| CategoryView.CategoryScreen.FinishLoadCategories | src/sections/category/category-view.tsx:42-45 | a success replaces the list with the data or `[]`; a failure keeps it |
| CategoryView.CategoryScreen.BeginLoadSub | src/sections/category/category-view.tsx:51-59 | the category becomes active before the request |
| CategoryView.CategoryScreen.FinishLoadSub | src/sections/category/category-view.tsx:61-65 | only a success sets the subcategories (or `[]`) and switches to subcategory mode |
| CategoryView.CategoryScreen.Back | src/sections/category/category-view.tsx:182-186 | back to category mode, with no subcategories and no active category |
| CategoryView.CategoryScreen.ClickAdd | src/sections/category/category-view.tsx:154-174 | the visible add button opens its own modal |
| CategoryView.CategoryScreen.CloseAdd | src/sections/category/category-view.tsx:205 | closes the category modal |
| CategoryView.CategoryScreen.CloseSubAdd | src/sections/category/category-view.tsx:212 | closes the subcategory modal |
| CategoryView.LoadSubScenario | src/sections/category/category-view.tsx:51-66 | a failed load keeps the category table and header, with the category still active; a success shows its subcategories under its name |
| EventFormModal.Take10 | src/sections/event/event-form-modal.tsx:61-62 | `substring(0, 10)` is the prefix of length `min(10, n)` |
| EventFormModal.Take10KeepsDate | src/sections/event/event-form-modal.tsx:61-62 | an ISO timestamp keeps exactly its date |
| EventFormModal.DatePart | src/sections/event/event-form-modal.tsx:61-62 | a missing date becomes `''`; the result is at most ten characters |
| EventFormModal.FilledForm | src/sections/event/event-form-modal.tsx:58-66 | fields are copied, dates truncated to ten characters, missing values `''` |
| EventFormModal.BlankEventFillsEmptyForm | src/sections/event/event-form-modal.tsx:28-66 | an empty event fills `EMPTY_FORM` |
| EventFormModal.FillDatesStable | src/sections/event/event-form-modal.tsx:61-62 | truncating a filled date again changes nothing |
| EventFormModal.SubmitCall | src/sections/event/event-form-modal.tsx:82-92 | create posts to `ADD_EVENT`, edit to `EDIT_EVENT(id)`, both with auth and the form |
| EventFormModal.SuccessText | src/sections/event/event-form-modal.tsx:86-91 | each mode has its own success text |
| EventFormModal.ButtonLabel | src/sections/event/event-form-modal.tsx:204-210 | Create / Creating... / Update / Updating... by mode and loading |
| EventFormModal.ButtonLabelInjective | src/sections/event/event-form-modal.tsx:204-210 | the label determines both the mode and the loading state |
| EventFormModal.WithField | src/sections/event/event-form-modal.tsx:126-181 | each input writes only its own field |
| EventFormModal.EventDialog.constructor | src/sections/event/event-form-modal.tsx:44-47 | the initial form and texts |
| EventFormModal.EventDialog.Sync | src/sections/event/event-form-modal.tsx:52-70 | while closed nothing changes; opening clears both messages, then fills from the event in edit mode or resets otherwise |
| EventFormModal.EventDialog.Change | src/sections/event/event-form-modal.tsx:126-181 | only that field changes |
| EventFormModal.EventDialog.BeginSubmit | src/sections/event/event-form-modal.tsx:75-105 | nothing happens while loading; create and edit send their call; edit without an event fails before any request with the fallback error |
| EventFormModal.EventDialog.FinishSubmit | src/sections/event/event-form-modal.tsx:86-106 | a success sets the text, notifies the parent and schedules the close at 700 ms; a failure shows the message or the fallback; loading ends |
| EventFormModal.DoubleSubmit | src/sections/event/event-form-modal.tsx:76 | a second submit while loading sends nothing |
| ProfileView.Img | src/sections/profile/profile-view.tsx:112-113 | falsy gives none, `blob:` is kept verbatim, anything else gets the image base URL |
| ProfileView.DigitChar | src/sections/profile/profile-view.tsx:68 | a digit's character has the digit's value |
| ProfileView.Digits | src/sections/profile/profile-view.tsx:68 | a number's decimal text is non-empty and all digits |
| ProfileView.DigitsRoundTrip | src/sections/profile/profile-view.tsx:68 | reading the decimal text back gives the number |
| ProfileView.IntString | src/sections/profile/profile-view.tsx:68 | `String(n)`: the digits, with a minus sign for a negative number |
| ProfileView.SignShown | src/sections/profile/profile-view.tsx:68 | the text starts with `-` exactly for a negative number |
| ProfileView.DigitsInjective | src/sections/profile/profile-view.tsx:68 | different natural numbers have different decimal texts |
| ProfileView.IntStringInjective | src/sections/profile/profile-view.tsx:68 | different phone numbers give different texts |
| ProfileView.PhoneText | src/sections/profile/profile-view.tsx:68 | `String(phone ?? '')`: a missing phone gives `''`, a present one its non-empty decimal text |
| ProfileView.LoadedForm | src/sections/profile/profile-view.tsx:66-71 | name and location default to `''`, the phone is its text, and the password is always `''` |
| ProfileView.FieldParts | src/sections/profile/profile-view.tsx:90-92 | exactly the non-empty fields are sent, each as its text |
| ProfileView.EmptyFieldOmitted | src/sections/profile/profile-view.tsx:91 | a field with an empty value is never sent |
| ProfileView.FileParts | src/sections/profile/profile-view.tsx:94-95 | `image` then `bannerImage`, each iff its file was chosen |
| ProfileView.BuildFormData | src/sections/profile/profile-view.tsx:88-95 | the loop's entries are the sent fields followed by the file parts |
| ProfileView.ProfileScreen.constructor | src/sections/profile/profile-view.tsx:30-45 | the initial form, files, previews and loading |
| ProfileView.ProfileScreen.BeginLoad | src/sections/profile/profile-view.tsx:61-63 | skipped without a user id; otherwise the profile request goes out without `authRequired` |
| ProfileView.ProfileScreen.FinishLoad | src/sections/profile/profile-view.tsx:63-77 | a success fills the form and the previews; a failure changes nothing |
| ProfileView.ProfileScreen.Change | src/sections/profile/profile-view.tsx:262-305 | only that field changes |
| ProfileView.ProfileScreen.PickImage | src/sections/profile/profile-view.tsx:177-185 | without a file nothing changes; with one it is kept and previewed through its object URL |
| ProfileView.ProfileScreen.PickBanner | src/sections/profile/profile-view.tsx:220-228 | the same for the banner |
| ProfileView.ProfileScreen.BeginSubmit | src/sections/profile/profile-view.tsx:84-100 | a multipart POST to `EDIT_PROFILE` with auth, carrying the built entries |
| ProfileView.ProfileScreen.FinishSubmit | src/sections/profile/profile-view.tsx:102-105 | a success raises `Profile updated`; loading ends either way |
| ProfileView.LoadedPasswordNotSent | src/sections/profile/profile-view.tsx:66-92 | after a load, no password is sent unless one is typed |
| MouTable.TableData | src/sections/mouManagment/mou-table.tsx:48-49 | the rows are shown iff one has a truthy MOU number; otherwise the static rows are |
| MouTable.TableDataStable | src/sections/mouManagment/mou-table.tsx:13-49 | the shown table is never empty, and choosing again changes nothing |
| MouTable.MouNumberCell | src/sections/mouManagment/mou-table.tsx:54 | the MOU number, or `-` |
| MouTable.OrganizationCell | src/sections/mouManagment/mou-table.tsx:59 | the organisation name, or `-` |
| MouTable.StatusCellOf | src/sections/mouManagment/mou-table.tsx:63-78 | no status gives `-`; otherwise a chip labelled with the status, success iff `signed`, warning iff `otp_sent` |
| MouTable.SignIffNotSuccess | src/sections/mouManagment/mou-table.tsx:63-88 | Sign is offered exactly when the chip is not the success chip |
| MouTable.StaticRows | src/sections/mouManagment/mou-table.tsx:13-88 | the signed static row offers no Sign; the `otp_sent` one does, with a warning chip |

## Left out

- Rendering, MUI styling, icons and DataTable pagination and sorting are presentation only.
- The axios transport, the 50 s timeout and the network are not modelled. The model treats a request as the `Http.Call` value a handler issues, and its answer as `Http.Response`: success data, or an error `{status?, message?}`.
- axios's merging of the instance defaults into the config is not modelled, and neither is the API base URL (src/api/endpoint.ts:3) that the transport puts before every path.
- `atob` and `JSON.parse` are not modelled. Token decoding is the parameter `Auth.Decoder`, and the stored user's parse is the parameter `AccountPopover.UserParser`. A parse that throws during render is not modelled.
- `Auth.HasExp`: `exp` is an integer. A fractional or non-numeric `exp` and `Date.now()/1000` float division are not modelled, because the comparison is taken as `exp*1000 < nowMs`.
- `UseAuth.Mount`: a negative delay (see `UseAuth.LaterReadingNegativeDelay`) is recorded as given; the browser runs such a timer at once. The timer firing, and browsers clamping delays above 2^31-1 ms, are not modelled. These are asynchronous. The model records the armed timer only.
- Interleavings of concurrent requests are not modelled. Examples are two page loads racing, or a stale closure in `toggleStatus`. Each handler runs start to finish, with its answer supplied to its `Finish…` method.
- Navigation is not performed. `window.location`, `router.push`/`replace` and `Navigate` are returned as values. react-router's case-insensitive matching and trailing-slash handling are not modelled, because `Routes.MatchIn` matches paths exactly.
- `SignIn.SignInView.FinishLogin`: a success response whose body is not an object is not modelled. In the source, reading `res.data.token` throws and is caught as a failure.
- `Strings.LowerChar` / `Strings.UpperChar`: only ASCII letters change case, because non-ASCII `toLowerCase`/`toUpperCase` is out of scope.
- `ProfileView.PhoneText`: the phone is an integer. `String` of a fractional number is not modelled.
- Files are opaque `Http.FileRef` names. `URL.createObjectURL` is a parameter of `ProfileView.ProfileScreen.PickImage`. PDF previews are not modelled.
- Endpoint keys used by screens but not defined in src/api/endpoint.ts are opaque `Endpoints.Unlisted` values: `LOGIN_PANEL`, `GET_APPROVALS_REQUEST`, `APPROVAL_ACTION`, `ADD_EVENT`, `EDIT_EVENT`, `GET_PROFILE`, `EDIT_PROFILE`. The model assumes each key is defined. With src/api/endpoint.ts as it stands they are all `undefined`, and the code would behave differently:
  - `EDIT_EVENT(id)` throws before any request, so the edit submit shows the fallback error.
  - `GET_PROFILE(id)` throws inside the load effect.
  - The approvals load and the other calls request the path `undefined` (plus `?organiser=true` for the approvals load).
- The sub-category modal's `onSuccess` reload is not modelled, because that modal is not part of this model. It reloads `activeCategory!`.
- The event dialog's scheduled `onClose` is returned as `ScheduleClose(700)` and not run.
- `IMAGE_BASE_URL` is a parameter. When the environment variable is unset, the prefix is the text `undefined`, which the parameter covers.
- The event list, toolbar and table, the OTP and PDF-preview modals, the MOU view and the page wrappers are not modelled, because they only fetch and render.
- The type declarations under src/types serve only as the shapes of the datatypes.
