# Road traffic survey admin panel — verified model of its decision logic

The road traffic survey admin panel is a browser application. Administrators
use it to manage surveys and users. Agents use it to start a survey and count
the vehicles passing a counting post. Behind the rendering and the HTTP calls
there is a layer of small, sequential decisions, and this project models that
layer in Dafny:

- the data grid's page bar, row selection, go-to-page box, empty-state text
  and filter bubbles;
- the applied-filter counter;
- the multi-select dropdown and the keyboard-navigable tab strip;
- the survey and user list pages, including their query-string builders and
  endpoint paths;
- the session store, and the authentication and user-kind predicates;
- the router's route filtering and login redirect, and the header's
  active-link rule;
- the HTTP client's header, 401-refresh and error-page hooks, and the error
  page;
- the file download's request shape and its `Content-Disposition` file name;
- the counting page, the countdown timer hook and the survey card's start
  rules;
- the survey create and edit forms and the new-password form.

There is one module per source file. Two modules are shared: `Common` holds
JavaScript value semantics, string helpers and decimal conversion, and
`DataModels` holds the records exchanged with the back end.

Some of the source changes state step by step: React state hooks, the
session store, the request passed through the HTTP hooks, the browser
location, the timer and the dropdown. Each of these is a `class` whose
methods state their whole new state, usually as
`State() == old(State()).(…)`. Everything else is a function. Each function's
properties are stated in its `ensures` clauses or in separate lemmas:

- round trips, such as the count down display reading back as the remaining
  seconds, a typed page number reaching that page, or a second choice of the
  same option restoring the selection;
- idempotence, for logout, profile merge and clearing filters;
- exclusivity, for the user kinds and the active navigation link;
- preserved invariants, such as counts that are never negative, a page that
  is never below 1, and a session store that stays consistent.

## Modelling conventions

- Times are integer milliseconds. Reading a time text as a date is the
  parameter `toMillis`, where `None` stands for an invalid date: every
  comparison with it is false, as with NaN.
- The clock (`now`), stored session data, the server's responses and what
  the refresh call returns are all parameters.
- Translation keys are kept as opaque strings, and translation is the
  identity. CSS class choices become enumerations, except for the error
  page's width classes, which are kept literally.
- JavaScript values are the datatype `Common.JsValue`. It provides
  truthiness and the loose `== ''` test.
- `parseInt` is modelled as: leading whitespace, an optional sign, then the
  leading decimal digits.
- A query string is a sequence of key/value pairs, with URL encoding left
  abstract.
- An asynchronous handler is split into a `Begin…` method, which runs up to
  the request, and a `Finish…` method, which takes the outcome as a
  parameter.

## Behaviour worth noting

- The token refresh is sent even when no refresh token is stored:
  `FetchClient.RefreshTokenMiddleware` records a `RefreshCall` carrying `None`.
- The route table carries no role restrictions. The router checks only
  `authorizationRequired`.
- A 403 response only redirects to the error page. No alert is shown.

## Model

| member | source | states |
|---|---|---|
| Grid.RenderPageNumbers | src/components/Grid/Grid.tsx:70-86 | With 10 pages or fewer, the bar is exactly 1..totalPages. Beyond 10 it has exactly 7 entries, from 1 to totalPages. Each of the three windows is stated. The numbers are always strictly increasing and within range, and the current page is shown whenever it is in range. |
| Grid.PageButtonRequest | src/components/Grid/Grid.tsx:271-282 | A page button asks for its own page, and the `'...'` entry asks for nothing. |
| Grid.HandleGoToPage | src/components/Grid/Grid.tsx:43-49 | A page is requested exactly when the text parses to an integer in 1..totalPages, and the requested page is that integer. The box is always cleared. |
| Grid.GoToTypedPage | src/components/Grid/Grid.tsx:43-49 | Typing the decimal text of a page reaches that page exactly when it is in range. |
| Grid.HandleSelectAll | src/components/Grid/Grid.tsx:51-58 | Checking selects exactly the ids of the page's rows, and unchecking selects none. |
| Grid.HandleRowSelect | src/components/Grid/Grid.tsx:60-68 | It flips the membership of the given id, and the membership of every other id is unchanged. |
| Grid.RowSelectTwice | src/components/Grid/Grid.tsx:60-68 | Toggling the same row twice restores the selection. |
| Grid.SelectAllChecksHeader | src/components/Grid/Grid.tsx:168 | On a page with distinct ids, selecting all checks the header box and clearing unchecks it. |
| Grid.HeaderCheckedBySizeOnly | src/components/Grid/Grid.tsx:168 | The header compares sizes only, so ids kept from another page can check it. |
| Grid.EmptyStateMessage | src/components/Grid/Grid.tsx:152-156 | "No matching records" is shown exactly when a search is set or the filters are not empty. Otherwise "no records to display" is shown. |
| Grid.EmptyFiltersCountNothing | src/components/Grid/Grid.tsx:88-95 | Filters the grid calls empty give an applied-filter count of 0 for any groups. |
| Grid.ZeroFilterCountsNothingButIsNotEmpty | src/components/Grid/Grid.tsx:88-95 | The converse fails: a filter holding 0 counts nothing, yet the grid reports "no matching records". |
| Grid.PreviousRequest | src/components/Grid/Grid.tsx:263-264 | It is disabled exactly on page 1, and otherwise asks for the page before. |
| Grid.NextRequest | src/components/Grid/Grid.tsx:291-292 | It is disabled exactly on the last page, and otherwise asks for the page after. |
| Grid.PreviousNextStayInRange | src/components/Grid/Grid.tsx:261-293 | From a page in range, previous and next only ask for pages in range. |
| Grid.FilterButtonText | src/components/Grid/Grid.tsx:129 | It shows the caption, with the count in parentheses only when the count is positive. |
| Grid.SearchBubbleClose | src/components/Grid/Grid.tsx:137-142 | The search bubble shows exactly when a search is set, and closing it searches for `''`. |
| Grid.PageSizeOptionsReadBack | src/components/Grid/Grid.tsx:321-330 | Each of the options 10, 25, 50 and 100 is parsed back by `parseInt` to itself, and each is a positive size. |
| FiltersBubbles.Cleared | src/components/Grid/parts/FiltersBubbles.tsx:25-35 | Every listed key is `undefined`. Every other key is present exactly when it was, with its old value. |
| FiltersBubbles.RemoveFilters | src/components/Grid/parts/FiltersBubbles.tsx:25-35 | The key-by-key loop computes exactly `Cleared`. |
| FiltersBubbles.ClearedSnoc | src/components/Grid/parts/FiltersBubbles.tsx:29-31 | Clearing one more key is one more map update. |
| FiltersBubbles.ClearedIdempotent | src/components/Grid/parts/FiltersBubbles.tsx:25-35 | Clearing twice is clearing once. |
| FiltersBubbles.BubbleFor | src/components/Grid/parts/FiltersBubbles.tsx:39-101 | For each bubble type it states when the bubble shows and which keys closing it clears. A range bubble clears both keys, a single bubble its key, and a list bubble only its list key. A custom bubble calls `handleClose`; unknown types never show. |
| FiltersBubbles.ClosingHidesBubble | src/components/Grid/parts/FiltersBubbles.tsx:43-82 | Closing a range, single or list bubble hides it. |
| FiltersBubbles.ClosingListKeepsOperator | src/components/Grid/parts/FiltersBubbles.tsx:71-82 | Closing a list bubble keeps its operator value. |
| FiltersBubbles.Bubbles | src/components/Grid/parts/FiltersBubbles.tsx:39-102 | Every visible entry's bubble is present, and every bubble present belongs to some entry of the configuration. There are never more bubbles than entries. |
| FiltersBubbles.BubblesOfOne | src/components/Grid/parts/FiltersBubbles.tsx:39-102 | A single entry gives its own bubble when visible, and nothing otherwise. |
| FiltersBubbles.BubblesAppend | src/components/Grid/parts/FiltersBubbles.tsx:39-102 | The bubbles of two configurations are those of the first followed by those of the second, so each entry gives at most one bubble, in configuration order. |
| CountDefinedProps.CountDefinedProps | src/shared/utils/countDefinedProps.ts:5-16 | The count lies between 0 and the number of groups. |
| CountDefinedProps.CountAppend | src/shared/utils/countDefinedProps.ts:5-16 | Appending a group adds 1 exactly when that group has a value, so the count never decreases. |
| CountDefinedProps.CountZeroIff | src/shared/utils/countDefinedProps.ts:5-16 | The count is 0 exactly when no group has a value. |
| CountDefinedProps.CountFullIff | src/shared/utils/countDefinedProps.ts:5-16 | The count equals the number of groups exactly when every group has a value. |
| CountDefinedProps.CountOnlyReadsNamedKeys | src/shared/utils/countDefinedProps.ts:6-7 | Records that agree on the named keys get the same count. |
| CountDefinedProps.SingleKeyCount | src/shared/utils/countDefinedProps.ts:5-16 | For one one-key group, the count is 1 exactly when that key holds a value. |
| CountDefinedProps.HoldsValueCases | src/shared/utils/countDefinedProps.ts:8-13 | These are unset: `''`, `0`, `false`, `[]`, `[null]` and `['']`. Non-empty text, non-zero numbers, objects and other arrays are set. |
| Select.WithoutKey | src/components/Select/Select.tsx:61 | It keeps exactly the entries whose key differs, and every kept entry was selected. |
| Select.WithoutAbsentKey | src/components/Select/Select.tsx:61 | Removing a key that is not selected changes nothing. |
| Select.HandleSelect | src/components/Select/Select.tsx:54-69 | Single select gives exactly `[option]`. Multi select appends an unselected option, or else removes every entry with its key. With a fixed first choice, choosing the first entry changes nothing. |
| Select.ChooseTwiceRestores | src/components/Select/Select.tsx:59-64 | Choosing an unselected option twice restores the selection. |
| Select.FirstChoiceBecomesFixed | src/components/Select/Select.tsx:60 | With a fixed first choice, the first option chosen can no longer be removed. |
| Select.FixedFirstStaysFirst | src/components/Select/Select.tsx:58-64 | With a fixed first choice, choosing never moves or removes the first entry. |
| Select.HandleClear | src/components/Select/Select.tsx:71-75 | Clearing leaves `[]`, or only the fixed first entry, and after it the clear button is hidden. |
| Select.ClearButtonShown | src/components/Select/Select.tsx:112 | Definition: something is chosen, and with a fixed first choice there is more than it; `HandleClear` proves a clear hides it. |
| Select.FilteredOptions | src/components/Select/Select.tsx:77-79 | It keeps exactly the options whose lower-cased label contains the lower-cased search. |
| Select.FilteredOptionsAppend | src/components/Select/Select.tsx:77-79 | Filtering keeps the original order, because it distributes over concatenation. |
| Select.EmptySearchKeepsAll | src/components/Select/Select.tsx:77-79 | An empty search keeps every option. |
| Select.SelectBox.constructor | src/components/Select/Select.tsx:31-32 | The dropdown starts closed, with an empty search. |
| Select.SelectBox.Toggle | src/components/Select/Select.tsx:81-91 | The trigger flips open and closed, and the search is kept. |
| Select.SelectBox.ClickOutside | src/components/Select/Select.tsx:38-43 | A press outside closes the dropdown and clears the search. |
| Select.SelectBox.SetSearch | src/components/Select/Select.tsx:147 | Typing replaces the search and leaves the open state alone. |
| Select.SelectBox.Choose | src/components/Select/Select.tsx:65-67 | The change is `HandleSelect`'s, and single select also closes the dropdown. |
| Tabs.FindTitle | src/components/Tabs/Tabs.tsx:25 | It returns the first index whose title is `currentTab`, or -1 when there is none. |
| Tabs.InitialTab | src/components/Tabs/Tabs.tsx:25-26 | It is the first matching tab, otherwise 0. |
| Tabs.TabsState.constructor | src/components/Tabs/Tabs.tsx:25-26 | The open tab starts at `InitialTab`. |
| Tabs.TabsState.ShownItem | src/components/Tabs/Tabs.tsx:28-30 | The item shown is the open index's item, when that index is in range. |
| Tabs.TabsState.SelectTab | src/components/Tabs/Tabs.tsx:32-35 | When disabled it does nothing. Otherwise, with `onSelectTab` it hands that item over and keeps the index; without it, it opens the index. |
| Tabs.TabsState.ItemsChanged | src/components/Tabs/Tabs.tsx:28-30 | A new item list resets the open tab to `InitialTab`. |
| Tabs.TabsState.CurrentTabChanged | src/components/Tabs/Tabs.tsx:37-39 | A new `currentTab` selects `InitialTab` through `SelectTab`. |
| Tabs.HandleKeyDown | src/components/Tabs/Tabs.tsx:41-86 | Right and Down move focus to the next tab, wrapping. Left and Up move to the previous tab, wrapping. Home goes to 0 and End to the last tab. Exactly these keys are handled, and focus always stays in range. |
| Tabs.LeftUndoesRight | src/components/Tabs/Tabs.tsx:46-64 | Right then left, or left then right, returns to the start. |
| Tabs.FocusWraps | src/components/Tabs/Tabs.tsx:46-64 | Right from the last tab goes to the first, and left from the first goes to the last. |
| Tabs.CurrentTabMayOpenDisabledItem | src/components/Tabs/Tabs.tsx:37-39 | The parent's current tab can open an item marked disabled. |
| SurveyApi.SurveysQuery | src/pages/survey/api.ts:19-27 | It always sends `page` then `limit` first. Its length counts the optional search and status, and it sends no other key. |
| SurveyApi.SurveysQuerySendsNonEmpty | src/pages/survey/api.ts:22-27 | `search` and `status` are sent exactly when they are non-empty, with their own values. |
| SurveyApi.GetSurveys | src/pages/survey/api.ts:13-30 | The successive appends produce `GET surveys` with exactly `SurveysQuery`. |
| SurveyApi.FilterSearchIgnored | src/pages/survey/api.ts:25-27 | The filter's own search never changes the query. |
| SurveyApi.PageReadsBack | src/pages/survey/api.ts:20 | The `page` value parses back to the page asked for. |
| SurveyApi.PathsIdentifySurvey | src/pages/survey/api.ts:33-59 | Different ids give different paths for get, update, delete, start and end. |
| SurveyApi.StartNeverEnds | src/pages/survey/api.ts:52-60 | A start call never equals an end call. |
| SurveyApi.SamePathDifferentVerb | src/pages/survey/api.ts:33-50 | Get, update and delete share the survey's path and differ in verb. |
| SurveyApi.UpdateWithoutId | src/pages/survey/api.ts:43-45 | A form without an id updates `surveys/undefined`. |
| SurveyApi.GetSurveyById | src/pages/survey/api.ts:33-35 | Definition: `GET surveys/<id>`; `PathsIdentifySurvey` and `SamePathDifferentVerb` state its properties. |
| SurveyApi.CreateSurvey | src/pages/survey/api.ts:38-40 | Definition: `POST surveys/create`. |
| SurveyApi.UpdateSurvey | src/pages/survey/api.ts:43-45 | Definition: `PUT surveys/<form id>`; `UpdateWithoutId` covers a form without an id. |
| SurveyApi.DeleteSurvey | src/pages/survey/api.ts:48-50 | Definition: `DELETE surveys/<id>`; `PathsIdentifySurvey` and `SamePathDifferentVerb` state its properties. |
| SurveyApi.StartSurvey | src/pages/survey/api.ts:53-55 | Definition: `PUT surveys/<id>/start`; `StartNeverEnds` separates it from the end call. |
| SurveyApi.EndSurvey | src/pages/survey/api.ts:58-60 | Definition: `PUT surveys/<id>/end`. |
| SurveyApi.GetSurveyStats | src/pages/survey/api.ts:63-91 | Definition: `GET surveys/stats/overview`. |
| SurveyApi.GetAgents | src/pages/survey/api.ts:94-136 | Definition: `GET users/list?role=agent`, with the role in the path text. |
| UserApi.UsersQuery | src/pages/user/api.ts:17-20 | `page`, `limit` and `search` are each sent only when truthy, and no other key is sent. |
| UserApi.UsersQuerySendsTruthy | src/pages/user/api.ts:18-20 | Each parameter is sent exactly when it is truthy, with its own value. |
| UserApi.GetUsers | src/pages/user/api.ts:11-23 | The append steps produce `GET users/list` with exactly `UsersQuery`. |
| UserApi.UserFilterIgnored | src/pages/user/api.ts:11-22 | The filter argument never changes the query. |
| UserApi.ExportUsersCsv | src/pages/user/api.ts:25-37 | The export asks for a GET download of `users/export`, whose parameters carry the search exactly when it is non-empty. |
| UserApi.ExportDropsSearch | src/pages/user/api.ts:25-37 | As written, the request sent carries no parameters, so two searches give the same request. |
| UserApi.IntendedExportSendsSearch | src/pages/user/api.ts:25-37 | With the corrected download, the search reaches the request exactly when it is non-empty. |
| UserApi.UpdateUserBody | src/pages/user/api.ts:43-45 | The body has the data's keys plus `id`. Data fields keep their values, and `id` is the argument unless the data has its own `id`. |
| UserApi.DeleteNeverReadsDetails | src/pages/user/api.ts:47-53 | The delete path and the details path never coincide. |
| UserApi.CreateUser | src/pages/user/api.ts:39-41 | Definition: `POST users/create-agent`. |
| UserApi.UpdateUser | src/pages/user/api.ts:43-45 | Definition: `PUT users/update`; `UpdateUserBody` states its body. |
| UserApi.DeleteUser | src/pages/user/api.ts:47-49 | Definition: `DELETE users/delete?id=<id>`; `DeleteNeverReadsDetails` separates it from the details call. |
| UserApi.GetUserDetails | src/pages/user/api.ts:51-53 | Definition: `GET users/details?id=<id>`. |
| UserStore.UserFromAuth | src/shared/stores/userStore.ts:29-35 | The kept user takes `id` from `_id`, and copies email, full name, phone and role. |
| UserStore.Merge | src/shared/stores/userStore.ts:44-51 | Every field the patch carries wins, and every other field is kept. |
| UserStore.MergeIdempotent | src/shared/stores/userStore.ts:44-51 | Merging a patch twice is merging it once, and an empty patch changes nothing. |
| UserStore.SignedInIffTokenAndUser | src/shared/stores/userStore.ts:24-40 | In a consistent store, being signed in means holding both an access token and a user. |
| UserStore.DefaultConsistent | src/shared/stores/userStore.ts:12-17 | The default contents are consistent. |
| UserStore.Store.constructor | src/shared/stores/userStore.ts:12-17 | The store starts signed out, with no user and no tokens. |
| UserStore.Store.SignInWithCredentials | src/shared/stores/userStore.ts:24-37 | After sign-in the store is signed in, with the response token as both access and refresh token and the converted user; the store stays consistent. |
| UserStore.Store.Logout | src/shared/stores/userStore.ts:38-40 | Logout restores the default contents exactly, so it is idempotent. |
| UserStore.Store.UpdateAccessToken | src/shared/stores/userStore.ts:41-43 | Only the access token changes, and consistency is kept. |
| UserStore.Store.UpdateUserData | src/shared/stores/userStore.ts:44-51 | The patch is merged into an existing user, and with no user there is still none. Tokens and the flag are untouched. |
| UserStore.TokenUpdateKeepsSignedOut | src/shared/stores/userStore.ts:41-43 | A token update on a signed-out store leaves it signed out and consistent. |
| AuthUtils.AuthenticatedIffNonEmptyToken | src/shared/utils/authUtils.ts:7-10 | For a consistent store, authenticated means signed in with a non-empty access token. |
| AuthUtils.ExactAdminIsAdminKind | src/shared/utils/authUtils.ts:17-28 | An exact `admin` role is an admin kind. A role named `Admin` is an admin kind but does not pass `isAdmin`. |
| AuthUtils.ForceLogoutMessage | src/shared/utils/authUtils.ts:45-49 | The alert quotes a non-empty reason, and otherwise uses the generic text. |
| AuthUtils.ForceLogout | src/shared/utils/authUtils.ts:42-53 | The store returns to its defaults so nobody is authenticated, and the location becomes `/login`. |
| AuthUtils.IsAuthenticated | src/shared/utils/authUtils.ts:7-10 | Definition: signed in, a truthy access token, and a user; `AuthenticatedIffNonEmptyToken` states what it means for a consistent store. |
| AuthUtils.HasRole | src/shared/utils/authUtils.ts:17-20 | Definition: the user's role name equals the given text exactly; `ExactAdminIsAdminKind` contrasts it with the case-insensitive kind. |
| AuthUtils.IsAdmin | src/shared/utils/authUtils.ts:26-28 | Definition: `HasRole` with `admin`; `ExactAdminIsAdminKind` shows it implies the admin kind but not conversely. |
| AuthUtils.IsAgent | src/shared/utils/authUtils.ts:34-36 | Definition: `HasRole` with `agent`. |
| UserType.RoleName | src/shared/utils/userType.ts:11 | A name exists only for a role object. |
| UserType.GetUserType | src/shared/utils/userType.ts:10-28 | No role name gives unknown. Otherwise the kind is that of the lower-cased name: `admin` and `super admin` give admin, `agent` gives agent, `user` gives user, and anything else gives unknown. |
| UserType.KindsExclusive | src/shared/utils/userType.ts:35-65 | The kind predicates are pairwise exclusive, and elevated means admin or agent. |
| UserType.KindIgnoresCase | src/shared/utils/userType.ts:15 | The kind of a name equals the kind of its lower-cased form. |
| UserType.KindExamples | src/shared/utils/userType.ts:10-28 | `Super Admin` and `ADMIN` give admin and `Agent` gives agent. A plain-text role, `superadmin` and no user give unknown. |
| UserType.IsAdmin | src/shared/utils/userType.ts:35-37 | Definition: the kind is admin; `KindsExclusive` proves it excludes the other kinds. |
| UserType.IsAgent | src/shared/utils/userType.ts:44-46 | Definition: the kind is agent; `KindsExclusive` proves it excludes the other kinds. |
| UserType.IsRegularUser | src/shared/utils/userType.ts:53-55 | Definition: the kind is user; `KindsExclusive` proves it excludes the other kinds. |
| UserType.HasElevatedPrivileges | src/shared/utils/userType.ts:62-65 | Definition: the kind is admin or agent; `KindsExclusive` proves it equals `IsAdmin` or `IsAgent`. |
| Router.AvailableRoutes | src/app/providers/RouterProvider.tsx:12-15 | A signed-in session gets the whole table, and the filter never adds routes. |
| Router.AvailableRoutesMembers | src/app/providers/RouterProvider.tsx:12-15 | A route is available exactly when it is in the table and is public or the session is signed in. |
| Router.AvailableRoutesAppend | src/app/providers/RouterProvider.tsx:12-15 | The filter keeps table order, because it distributes over concatenation. |
| Router.SignedOutRoutes | src/app/router/routes.ts:9-32 | Signed out, the routes are login, reset password and the error page, in that order. |
| Router.LoginRedirect | src/app/providers/RouterProvider.tsx:17-25 | It redirects to `/login` exactly when the session is signed out and the location is not a public route's path. |
| Router.LoginRedirectCases | src/app/providers/RouterProvider.tsx:22-24 | A signed-in session is never redirected, and neither is `/login`. |
| Router.Rendered | src/app/providers/RouterProvider.tsx:30-39 | A location that no available route matches renders the login page. |
| Router.FirstMatching | src/app/providers/RouterProvider.tsx:30-39 | The first route in table order that matches is rendered. Some matching route's page is rendered whenever one matches, and otherwise the login page. |
| Router.ErrorPattern | src/app/router/routes.ts:28-31 | `/error/:errorCode` matches `/error/500` and does not match `/`. |
| Router.SignedOutErrorPageRedirects | src/app/providers/RouterProvider.tsx:18-24 | Signed out on `/error/500`, the error page is rendered, yet the effect redirects to `/login`, because the public-route test is plain text equality. |
| Router.ErrorPathNotPublic | src/app/providers/RouterProvider.tsx:18-20 | `/error/500` equals no public route's path. |
| Router.ErrorPageRendered | src/app/providers/RouterProvider.tsx:30-39 | Signed out, `/error/500` renders the errors page. |
| Router.PlainPatternMatches | src/app/providers/RouterProvider.tsx:32 | A path without a parameter matches exactly itself. |
| Router.SignedOutHomeShowsLogin | src/app/providers/RouterProvider.tsx:30-39 | Signed out, `/` renders the login page. Signed in, it renders the home page. |
| NavigationPanel.TriggerClass | src/widgets/Header/parts/NavigationPanel.tsx:8-15 | A link gets the active style exactly when the active rule holds: the root only on `/`, any other link on locations starting with its path. |
| NavigationPanel.Links | src/widgets/Header/parts/NavigationPanel.tsx:17-51 | Signed out there are no links. Signed in there is home first and surveys last, with users only for admins, and each link styled for the location. |
| NavigationPanel.AtMostOneActive | src/widgets/Header/parts/NavigationPanel.tsx:9 | At most one shown link is active for any location. |
| NavigationPanel.ActiveIsPrefix | src/widgets/Header/parts/NavigationPanel.tsx:9 | `/users` is active on `/users-archive`, and the root is active only on `/`. |
| FetchClient.ConfiguredClientId | src/shared/envs.ts:3 | It is never empty: the configured value when truthy, else `road-traffic-survey-ui`. |
| FetchClient.ConfiguredBaseUrl | src/shared/envs.ts:2 | It is never empty: the configured value when truthy, else `http://localhost:5000/api`. |
| FetchClient.Prepared | src/shared/api/fetchClient.ts:21-35 | `ClientId` is set exactly when one is configured, and `Authorization: Bearer …` exactly when the token is truthy. Every other header is kept, and no other header is added. |
| FetchClient.ClientIdMiddleware | src/shared/api/fetchClient.ts:21-26 | It sets `ClientId` only when one is configured. |
| FetchClient.AuthTokenMiddleware | src/shared/api/fetchClient.ts:28-35 | It sets the bearer header only for a non-empty token. |
| FetchClient.BeforeRequest | src/shared/api/fetchClient.ts:79-82 | Both hooks in order give exactly `Prepared`. |
| FetchClient.ClientIdAlwaysSent | src/shared/api/fetchClient.ts:21-26 | With the configured id, every request carries `ClientId`. |
| FetchClient.AuthorizationIffToken | src/shared/api/fetchClient.ts:33-34 | A request that carries no `Authorization` header of its own gets one exactly when the token is truthy. |
| FetchClient.ErrorPageTarget | src/shared/api/fetchClient.ts:13-19 | It redirects exactly for 403, 500, 502, 503 and 504 when the location does not contain `/login`, and the target is `/error/` followed by the status. |
| FetchClient.RedirectToErrorPage | src/shared/api/fetchClient.ts:13-19 | The new location is `ErrorPageTarget`'s, or else it is unchanged. |
| FetchClient.UnhandledStatusesStay | src/shared/api/fetchClient.ts:14-16 | 401 and 404 never redirect, and neither does any status on the login page. |
| FetchClient.ErrorTargetCarriesStatus | src/shared/api/fetchClient.ts:17 | The status parses back from the error page's path. |
| FetchClient.RefreshTokenMiddleware | src/shared/api/fetchClient.ts:37-72 | A refresh is sent exactly for a parsed 401 without `force_logout`, carrying the stored refresh token, present or not. A successful refresh updates only the access token and re-issues the request with the new bearer. Every other 401 logs out and goes to `/login`. Other statuses leave the store alone and follow `ErrorPageTarget`. |
| ErrorsPage.MessageFor | src/pages/errors/ErrorsPage.tsx:46-70 | A message exists exactly for the known codes. 401, 403 and 404 get their own entry, and every 5xx code gets the 500 entry. |
| ErrorsPage.Outcome | src/pages/errors/ErrorsPage.tsx:16-84 | A message is shown exactly for known codes, with its entry and width. Any other code navigates home. |
| ErrorsPage.ShownMessagesHaveOwnWidth | src/pages/errors/ErrorsPage.tsx:13-39 | A shown message never keeps the default `80vw` width. |
| ErrorsPage.ServerErrorsShareEntry | src/pages/errors/constants.ts:3-26 | All server errors look alike. The 401, 403 and 404 entries are pairwise distinct, and each differs from the 500 entry. |
| ErrorsPage.ClientRedirectsAreShown | src/pages/errors/ErrorsPage.tsx:49-64 | Every redirect the HTTP client makes lands on a code this page shows. |
| ErrorsPage.HandledStatusesKnown | src/pages/errors/ErrorsPage.tsx:49-64 | The decimal text of every handled status is a known code. |
| ErrorsPage.NotFoundOnlyByHand | src/pages/errors/ErrorsPage.tsx:50-55 | 404 shows a message, but the client never redirects to it. |
| ErrorsPage.WrapperSize | src/pages/errors/ErrorsPage.tsx:16-39 | Definition: the width class per code, with the 80vw default kept for other codes; `ShownMessagesHaveOwnWidth` proves that no shown code keeps the default. |
| DownloadFile.RequestFor | src/shared/api/downloadFile.ts:32-34 | As written, a POST sends the parameters and the data, and a GET sends the bare URL. |
| DownloadFile.IntendedRequestFor | src/shared/api/downloadFile.ts:32-34 | Corrected, both verbs send the parameters, and only a POST sends data. |
| DownloadFile.IntendedDiffersOnlyOnGetWithParams | src/shared/api/downloadFile.ts:32-34 | The two differ exactly on a GET that was given parameters. |
| DownloadFile.StripQuotes | src/shared/api/downloadFile.ts:40 | The result has no quote, is no longer than its input, and is unchanged for a quote-free text. |
| DownloadFile.StripQuotesAppend | src/shared/api/downloadFile.ts:40 | Removing quotes distributes over concatenation. |
| DownloadFile.FileName | src/shared/api/downloadFile.ts:36-40 | A given argument wins. A missing header, or no match, gives `downloaded_file`. An extracted name holds no quote. |
| DownloadFile.QuotedAttachmentName | src/shared/api/downloadFile.ts:36-40 | `attachment; filename="…"` gives back exactly the quoted name. |
| DownloadFile.AttachmentFirstMatch | src/shared/api/downloadFile.ts:39 | The first match of the pattern in `attachment; filename="…"` is the quoted name, with its quotes. |
| DownloadFile.UnquotedAttachmentName | src/shared/api/downloadFile.ts:36-40 | `attachment; filename=…;` with an unquoted name gives exactly the name, which runs up to the `;`. |
| DownloadFile.NoFilenameKeyGivesDefault | src/shared/api/downloadFile.ts:36-40 | A header in which the word `filename` never occurs gives `downloaded_file`. |
| DownloadFile.ArgumentWins | src/shared/api/downloadFile.ts:36-37 | An explicit name wins, even when it is empty. |
| DownloadFile.DownloadOutcome | src/shared/api/downloadFile.ts:46-67 | A named container that is missing is the error `Container not found`. Otherwise the result is the file name. |
| CountingPage.WithCount | src/pages/counting/CountingPage.tsx:78-81 | One category takes the new value, and the others keep theirs. |
| CountingPage.CountsAfterUpdate | src/pages/counting/CountingPage.tsx:77-82 | The category moves by delta and stops at 0. The others are unchanged, and counts that were never negative stay that way. |
| CountingPage.PlusThenMinus | src/pages/counting/CountingPage.tsx:77-82 | A plus press is undone by a minus press, and a minus press at 0 changes nothing. |
| CountingPage.MinusEnabled | src/pages/counting/CountingPage.tsx:210 | Definition: the minus button is enabled unless the count is 0. |
| CountingPage.MinusEnabledAboveZero | src/pages/counting/CountingPage.tsx:209-210 | With counts never negative, minus is enabled exactly above 0, a press then removes exactly one, and a disabled press would change nothing. |
| CountingPage.SubmitAvailableTime | src/pages/counting/CountingPage.tsx:49-51 | Submitting opens 120000 ms before a valid end time. A missing end and an invalid end both give none. |
| CountingPage.RemainingSeconds | src/pages/counting/CountingPage.tsx:68 | It is 0 once the time is reached, and otherwise the whole seconds left, rounded down. |
| CountingPage.Countdown | src/pages/counting/CountingPage.tsx:252-255 | It shows `00:00` once submitting is open, and otherwise the minutes, a colon and the seconds. |
| CountingPage.CountdownReadsBack | src/pages/counting/CountingPage.tsx:252-255 | The seconds are always two digits, and the display reads back as the remaining seconds. |
| CountingPage.LastSecondStillLocked | src/pages/counting/CountingPage.tsx:66-71 | In the last second before opening, the display shows `0:00` while submitting is still closed. |
| CountingPage.CountingPostOf | src/pages/counting/CountingPage.tsx:95 | The counting post is never empty, and defaults to `start`. |
| CountingPage.Classify | src/pages/counting/CountingPage.tsx:125-131 | A session error logs out, and wins over a permission error. A permission error gives the permission alert. Anything else gives the generic failure. |
| CountingPage.OutcomeOf | src/pages/counting/CountingPage.tsx:112-131 | A successful answer submits and leaves. A failed answer or a thrown error is classified by its message. |
| CountingPage.MissingIdIsGenericFailure | src/pages/counting/CountingPage.tsx:98-101 | The missing-id error is classified as the generic failure. |
| CountingPage.SessionErrorWins | src/pages/counting/CountingPage.tsx:125-128 | A message mentioning both a session error and permission logs out. |
| CountingPage.Counting.constructor | src/pages/counting/CountingPage.tsx:14-27 | The page starts with every count 0, not submitting, and submitting closed. |
| CountingPage.Counting.LoadSurvey | src/pages/counting/CountingPage.tsx:30-60 | A signed-out visitor is logged out, nothing usable stored goes back to the list, and a stored survey is shown with its submit time. |
| CountingPage.Counting.Tick | src/pages/counting/CountingPage.tsx:63-75 | With a truthy submit time, remaining and `canSubmit` are recomputed from `now`; with none, nothing changes. |
| CountingPage.Counting.UpdateCount | src/pages/counting/CountingPage.tsx:77-82 | The counts become `CountsAfterUpdate`, and nothing else changes. |
| CountingPage.Counting.HandleSubmit | src/pages/counting/CountingPage.tsx:84-135 | It is ignored without a survey or a user. A missing id sends nothing and fails generically. Otherwise the request carries the id, the counts and the post, and the effect is `OutcomeOf`. Submitting always ends cleared. |
| CountingPage.Counting.SubmitEnabled | src/pages/counting/CountingPage.tsx:266 | Definition: enabled while not submitting and once submitting is open. |
| UseTimer.Settle | src/shared/hooks/useTimer.tsx:22-24 | An active timer at 0 stops, and the count is unchanged. |
| UseTimer.TickStep | src/shared/hooks/useTimer.tsx:26-30 | A running timer loses one second, and any other timer keeps its count. It stays active only when it was active above 1. |
| UseTimer.Timer.constructor | src/shared/hooks/useTimer.tsx:9-10 | It starts at `seconds`, active when `defaultStarted`, then settled. |
| UseTimer.Timer.Start | src/shared/hooks/useTimer.tsx:12 | It activates without touching the count. |
| UseTimer.Timer.Restart | src/shared/hooks/useTimer.tsx:14-17 | It goes back to `seconds`, active. |
| UseTimer.Timer.Tick | src/shared/hooks/useTimer.tsx:19-36 | One interval firing is exactly `TickStep`. |
| UseTimer.TickBounds | src/shared/hooks/useTimer.tsx:22-30 | A tick never goes below 0 or above the old count, and the timer is never left active at 0. |
| UseTimer.RunsDown | src/shared/hooks/useTimer.tsx:14-36 | A started timer of n seconds reaches 0 and stops after exactly n ticks. |
| UseTimer.CountsOnePerTick | src/shared/hooks/useTimer.tsx:26-30 | Before that, t ticks leave n − t seconds, still active. |
| UseTimer.StoppedStaysPut | src/shared/hooks/useTimer.tsx:26 | An inactive timer never changes. |
| UseTimer.StartAfterFinishStaysStopped | src/shared/hooks/useTimer.tsx:12-24 | `start` on a finished timer does nothing, and `restart` runs again. |
| UseTimer.NegativeNeverStops | src/shared/hooks/useTimer.tsx:22-30 | A negative count stays active and never changes. |
| SurveyCard.GetAgentName | src/pages/survey/parts/SurveyCard.tsx:16-24 | An object with a non-empty full name shows it, text shows itself, and anything else shows `-`. |
| SurveyCard.DisplayStatus | src/pages/survey/parts/SurveyCard.tsx:45 | It is the effective status when truthy, else the status. |
| SurveyCard.StatusColorIgnoresCase | src/pages/survey/parts/SurveyCard.tsx:29-42 | The badge colour ignores letter case. |
| SurveyCard.GetStatusColor | src/pages/survey/parts/SurveyCard.tsx:29-42 | Definition: green, gray, blue and red for the lower-cased active, inactive, archived and terminated, and gray otherwise; `StatusColorIgnoresCase` states its case-insensitivity. |
| SurveyCard.CanStart | src/pages/survey/parts/SurveyCard.tsx:77-97 | A survey that is archived, terminated or missing a time never starts. An active survey with both times always starts. Only active or inactive surveys start. |
| SurveyCard.InactiveStartsInWindow | src/pages/survey/parts/SurveyCard.tsx:96 | An inactive survey starts exactly inside its window, with both ends included. |
| SurveyCard.InvalidTimeNeverStartsInactive | src/pages/survey/parts/SurveyCard.tsx:89-96 | An invalid start date blocks an inactive survey. |
| SurveyCard.DisabledButtonMessage | src/pages/survey/parts/SurveyCard.tsx:48-72 | The time reasons come first: not set, then waiting, then expired. |
| SurveyCard.StatusReasonOnlyInWindow | src/pages/survey/parts/SurveyCard.tsx:57-65 | An archived survey says so exactly inside its window. |
| SurveyCard.RenderActionButton | src/pages/survey/parts/SurveyCard.tsx:127-147 | Admins get edit. Agents get start exactly when `CanStart`, and otherwise the disabled reason. Everyone else gets nothing. |
| SurveyCard.DisabledReasonConsistent | src/pages/survey/parts/SurveyCard.tsx:48-97 | A "cannot start" reason means both times are set and the survey is not active; for an inactive survey, it means a date is invalid. |
| ListPage.NextSort | src/pages/survey/Survey.tsx:95-102 | The clicked column becomes the sorted one. It is descending exactly when it was already sorted ascending. |
| ListPage.SortTwice | src/pages/user/User.tsx:110-117 | Two clicks restore the sorted column, or leave another column descending. |
| ListPage.PageAfter | src/pages/survey/Survey.tsx:84-88 | A page in 1..totalPages is taken, and any other is ignored. |
| ListPage.PageAfterBounds | src/pages/user/User.tsx:99-103 | The page never drops below 1, and never moves past the last page. |
| ListPage.NoPagesFreezesPage | src/pages/survey/Survey.tsx:84-88 | With no pages, every page request is ignored. |
| ListPage.DocsOf | src/pages/survey/Survey.tsx:62 | It gives the response docs, or `[]`. |
| ListPage.TotalPagesOf | src/pages/survey/Survey.tsx:63 | It gives the response page count, kept even when 0, or 1. |
| ListPage.FindById | src/pages/survey/Survey.tsx:136-139 | It finds a record exactly when some record has the id, and the result is the first such record. |
| ListPage.FindFirstWins | src/pages/user/User.tsx:148-151 | Of two records with the same id, the first is picked. |
| SurveyPage.FetchQuery | src/pages/survey/Survey.tsx:52-69 | The fetch sends the page, the typed search and the status filter, and never the sort order. |
| SurveyPage.Row | src/pages/survey/Survey.tsx:114-133 | Missing texts show empty, a falsy status shows `-`, agents show `GetAgentName`, and a missing time shows `-`. |
| SurveyPage.Rows | src/pages/survey/Survey.tsx:114-134 | There is one row per survey, in order. |
| SurveyPage.EmptyNameStaysEmpty | src/pages/survey/Survey.tsx:125-128 | An empty name stays empty, while an empty status shows `-`. |
| SurveyPage.AppliedFiltersCountIsStatus | src/pages/survey/Survey.tsx:150 | The count is 1 exactly when a status filter is set. |
| SurveyPage.StatusBubbleMatchesCount | src/pages/survey/Survey.tsx:141-150 | The bubble shows exactly when the count is 1, and closing it zeroes the count. |
| SurveyPage.SurveyList.constructor | src/pages/survey/Survey.tsx:16-30 | It starts on page 1 of 1, sorted by name ascending, with 10 per page and no filters. |
| SurveyPage.SurveyList.BeginFetch | src/pages/survey/Survey.tsx:52-60 | It asks with the current page, size, search and filters, and marks loading. |
| SurveyPage.SurveyList.FinishFetch | src/pages/survey/Survey.tsx:61-69 | A response replaces the data and page count, a failure keeps them, and loading ends either way. |
| SurveyPage.SurveyList.HandleSearch | src/pages/survey/Survey.tsx:75-78 | It sets the search and goes back to page 1. |
| SurveyPage.SurveyList.HandlePageChange | src/pages/survey/Survey.tsx:84-88 | The page becomes `PageAfter`. |
| SurveyPage.SurveyList.HandleResultsPerPageChange | src/pages/survey/Survey.tsx:90-93 | It sets the size and goes back to page 1. |
| SurveyPage.SurveyList.HandleSort | src/pages/survey/Survey.tsx:95-102 | The sort becomes `NextSort`, and the fetch parameters are unchanged. |
| SurveyPage.SurveyList.HandleFiltersApply | src/pages/survey/Survey.tsx:104-107 | It takes the filters and closes the modal. |
| SurveyPage.SurveyList.ResetFilters | src/pages/survey/Survey.tsx:181 | It restores the default filters, and the count is 0. |
| SurveyPage.SurveyList.CloseStatusBubble | src/pages/survey/Survey.tsx:146 | It clears only the status filter. |
| SurveyPage.SurveyList.OpenFiltersModal | src/pages/survey/Survey.tsx:173 | It opens the filters modal. |
| SurveyPage.SurveyList.CloseFiltersModal | src/pages/survey/Survey.tsx:179 | It closes the filters modal. |
| SurveyPage.SurveyList.HandleActionClick | src/pages/survey/Survey.tsx:136-139 | It opens the first survey with that id for editing, and an unknown id changes nothing. |
| SurveyPage.SurveyList.CloseEditModal | src/pages/survey/Survey.tsx:188 | It closes the edit modal. |
| UserPage.FetchQuery | src/pages/user/User.tsx:52-69 | The page is always sent, the size when non-zero and the search when typed. The filters and sort never change the query. |
| UserPage.RoleCell | src/pages/user/User.tsx:138 | A named role object shows its name, text shows itself, and anything else shows `-`. |
| UserPage.Row | src/pages/user/User.tsx:137-146 | Missing texts show empty, a missing phone shows `-`, and the role shows `RoleCell`. |
| UserPage.Rows | src/pages/user/User.tsx:137-146 | There is one row per user, in order. |
| UserPage.EmptyPhoneStaysEmpty | src/pages/user/User.tsx:143 | Only a missing phone shows a dash. |
| UserPage.AppliedFiltersCountIsRole | src/pages/user/User.tsx:162 | The count is 1 exactly when a role is chosen, and a counting post or filter search never counts. |
| UserPage.RoleBubbleMatchesCount | src/pages/user/User.tsx:153-162 | The bubble shows exactly when the count is 1, and closing it zeroes the count. |
| UserPage.UserList.constructor | src/pages/user/User.tsx:19-34 | It starts on page 1 of 1, sorted by full name ascending, with 10 per page and no export running. |
| UserPage.UserList.BeginFetch | src/pages/user/User.tsx:52-60 | It asks with the current state, and marks loading. |
| UserPage.UserList.FinishFetch | src/pages/user/User.tsx:61-69 | A response replaces the data and page count, and loading ends either way. |
| UserPage.UserList.HandleExportCsv | src/pages/user/User.tsx:71-80 | During an export it does nothing. Otherwise it marks an export running and asks for the current search's export. |
| UserPage.UserList.ExportSettled | src/pages/user/User.tsx:81-83 | However the export ends, the button is enabled again. |
| UserPage.UserList.HandleSearch | src/pages/user/User.tsx:90-93 | It sets the search and goes back to page 1. |
| UserPage.UserList.HandlePageChange | src/pages/user/User.tsx:99-103 | The page becomes `PageAfter`. |
| UserPage.UserList.HandleResultsPerPageChange | src/pages/user/User.tsx:105-108 | It sets the size and goes back to page 1. |
| UserPage.UserList.HandleSort | src/pages/user/User.tsx:110-117 | The sort becomes `NextSort`, and the fetch parameters are unchanged. |
| UserPage.UserList.HandleFiltersApply | src/pages/user/User.tsx:119-122 | It takes the filters and closes the modal. |
| UserPage.UserList.ResetFilters | src/pages/user/User.tsx:193 | It restores the default filters, and the count is 0. |
| UserPage.UserList.CloseRoleBubble | src/pages/user/User.tsx:158 | It clears only the role filter. |
| UserPage.UserList.OpenFiltersModal | src/pages/user/User.tsx:185 | It opens the filters modal. |
| UserPage.UserList.CloseFiltersModal | src/pages/user/User.tsx:191 | It closes the filters modal. |
| UserPage.UserList.HandleActionClick | src/pages/user/User.tsx:148-151 | It opens the first user with that id for editing, and an unknown id changes nothing. |
| UserPage.UserList.CloseEditModal | src/pages/user/User.tsx:199 | It closes the edit modal. |
| CreateSurveyModal.WithField | src/pages/survey/parts/CreateSurveyModal.tsx:52-64 | The named field takes the value, and every other field is kept. |
| CreateSurveyModal.IsFormValidIff | src/pages/survey/parts/CreateSurveyModal.tsx:95-103 | The form is valid exactly when name and both points have a visible character and both times are non-empty. The agents play no part, and the empty form is invalid. |
| CreateSurveyModal.IsFormValid | src/pages/survey/parts/CreateSurveyModal.tsx:95-103 | Definition: the three texts are non-empty after trimming and both times are non-empty; `IsFormValidIff` characterises it. |
| CreateSurveyModal.SpacesOnlyInTimes | src/pages/survey/parts/CreateSurveyModal.tsx:95-103 | A name of spaces is refused, while a time of one space passes. |
| CreateSurveyModal.AgentsAfterFetch | src/pages/survey/parts/CreateSurveyModal.tsx:32-50 | Docs that are an array become the list, and anything else gives `[]`. |
| CreateSurveyModal.Modal.constructor | src/pages/survey/parts/CreateSurveyModal.tsx:22-30 | Every field starts empty, with no agents loaded. |
| CreateSurveyModal.Modal.SubmitEnabled | src/pages/survey/parts/CreateSurveyModal.tsx:214 | Submit is enabled exactly when nothing is loading, the name and both points each have a visible character, and both times are non-empty. |
| CreateSurveyModal.Modal.IsOpenChanged | src/pages/survey/parts/CreateSurveyModal.tsx:32-50 | Opening loads the agents, and closing keeps them. |
| CreateSurveyModal.Modal.HandleInputChange | src/pages/survey/parts/CreateSurveyModal.tsx:52-64 | The form becomes `WithField`. |
| CreateSurveyModal.Modal.BeginSubmit | src/pages/survey/parts/CreateSurveyModal.tsx:66-72 | It sends the create call with the form, and marks loading. |
| CreateSurveyModal.Modal.FinishSubmit | src/pages/survey/parts/CreateSurveyModal.tsx:72-78 | It completes only on success, and loading ends either way. |
| CreateSurveyModal.Modal.HandleClose | src/pages/survey/parts/CreateSurveyModal.tsx:80-93 | While loading it does nothing. Otherwise it empties the form and asks to close. |
| EditSurveyModal.AgentFormValue | src/pages/survey/parts/EditSurveyModal.tsx:22-32 | An agent object gives its id, text gives itself, and no agent gives `''`. |
| EditSurveyModal.MissingFieldsPass | src/pages/survey/parts/EditSurveyModal.tsx:84-92 | A survey with no texts and no times gives a valid form, and an empty name makes it invalid. |
| EditSurveyModal.IsFormValid | src/pages/survey/parts/EditSurveyModal.tsx:84-92 | Definition: each text is missing or non-empty after trimming, and no time is `''`; `MissingFieldsPass` and `CreateValidImpliesEditValid` state its properties. |
| EditSurveyModal.CreateValidImpliesEditValid | src/pages/survey/parts/EditSurveyModal.tsx:84-92 | A form the create modal accepts is accepted here too. |
| EditSurveyModal.Modal.constructor | src/pages/survey/parts/EditSurveyModal.tsx:22-32 | The form starts as the survey's copy. |
| EditSurveyModal.Modal.SubmitEnabled | src/pages/survey/parts/EditSurveyModal.tsx:216 | Submit is enabled exactly when nothing is loading, the name and both points are each missing or non-empty after trimming, and neither time is `''`. |
| EditSurveyModal.Modal.SurveyChanged | src/pages/survey/parts/EditSurveyModal.tsx:34-48 | A new survey replaces the form with its copy. |
| EditSurveyModal.Modal.HandleInputChange | src/pages/survey/parts/EditSurveyModal.tsx:50-62 | A text control changes only its own field. The id is never edited. |
| EditSurveyModal.Modal.HandleStatusChange | src/pages/survey/parts/EditSurveyModal.tsx:192-194 | The status select sets only the status, so the update sends the chosen status. |
| EditSurveyModal.Modal.BeginSubmit | src/pages/survey/parts/EditSurveyModal.tsx:64-70 | It sends the update to the form's own id, and marks loading. |
| EditSurveyModal.Modal.FinishSubmit | src/pages/survey/parts/EditSurveyModal.tsx:70-76 | It completes only on success, and loading ends either way. |
| EditSurveyModal.Modal.HandleClose | src/pages/survey/parts/EditSurveyModal.tsx:78-82 | While loading it does nothing. Otherwise it asks to close and keeps the form. |
| PasswordForm.AllRulesMatchIff | src/pages/login/parts/CreateNewPasswordForm.tsx:23-43 | Every rule passes exactly when the length, case, digit and special-character rules all hold. |
| PasswordForm.LengthRule | src/pages/login/parts/CreateNewPasswordForm.tsx:29 | Definition: at least 8 characters after trimming; `RulesWithoutWhitespace` reduces it to a plain length test. |
| PasswordForm.CaseRule | src/pages/login/parts/CreateNewPasswordForm.tsx:33 | Definition: a non-empty text without line terminators holding a lower-case and an upper-case ASCII letter. |
| PasswordForm.DigitRule | src/pages/login/parts/CreateNewPasswordForm.tsx:37 | Definition: some decimal digit. |
| PasswordForm.SpecialRule | src/pages/login/parts/CreateNewPasswordForm.tsx:41 | Definition: some character that is not an ASCII letter or digit. |
| PasswordForm.NewPasswordValid | src/pages/login/parts/CreateNewPasswordForm.tsx:116-123 | Definition: required, at most `maxLength`, no whitespace, every rule; `RuleExamples` exhibits a passing and a failing password. |
| PasswordForm.ConfirmValid | src/pages/login/parts/CreateNewPasswordForm.tsx:138-145 | Definition: required, no whitespace, and equal to the new password. |
| PasswordForm.SubmitEnabled | src/pages/login/parts/CreateNewPasswordForm.tsx:192 | An enabled button means every rule passes and the confirmation equals the new password. |
| PasswordForm.SubmitEnabledIffValid | src/pages/login/parts/CreateNewPasswordForm.tsx:192 | The button is enabled exactly when the form is valid. |
| PasswordForm.TrimNoWhitespace | src/pages/login/parts/CreateNewPasswordForm.tsx:29 | Trimming leaves text without whitespace unchanged. |
| PasswordForm.RulesWithoutWhitespace | src/pages/login/parts/CreateNewPasswordForm.tsx:116-123 | Without whitespace the length rule is a plain length test and the case rule needs only the two letters. A space passes the special rule but never validates. |
| PasswordForm.RuleExamples | src/pages/login/parts/CreateNewPasswordForm.tsx:23-43 | `Secret#1` passes every rule, and `Sec#1a` fails only the length rule. |
| PasswordForm.Form.constructor | src/pages/login/parts/CreateNewPasswordForm.tsx:53 | The form starts with no submit running. |
| PasswordForm.Form.BeginSubmit | src/pages/login/parts/CreateNewPasswordForm.tsx:58-64 | A submit while one is running is dropped. Otherwise the data is handed on and loading is set. |
| PasswordForm.Form.FinishSubmit | src/pages/login/parts/CreateNewPasswordForm.tsx:65-67 | However the submit ended, loading is cleared. |

## Left out

- Common.ToLower folds only the ASCII letters A-Z, while JavaScript `toLowerCase` folds every letter. The role and status comparisons are unaffected, because their constants are ASCII.
- Select.FilteredOptions: through Common.ToLower its case-insensitive search covers only ASCII letters. So the search `ä` finds the label `Ärger` in the source but not in the model.
- PasswordForm.LengthRule counts characters as Unicode code points, while JavaScript `.length` counts UTF-16 code units. So `😀😀😀😀` has length 8 in the source and passes, but has length 4 in the model and fails.
- PasswordForm.NewPasswordValid: its `maxLength` bound also counts code points rather than UTF-16 code units, for the same reason.
- UserStore.Merge treats a patch field of `None` as absent and keeps the old value. An object spread with an explicit `undefined` would overwrite that value. The store's only caller passes a required form value, so that case never reaches it.
- HTTP transport is left out: the `ky` client, credentials, the 15-second timeout and JSON decoding. Responses are parameters of the members that consume them.
- The refresh call is left out as a network request. Its success or failure is the parameter `refresh`. A successful response without an `accessToken` field is not modelled.
- FetchClient.RefreshTokenMiddleware does not model the concurrency of several requests that fail with 401 at the same moment.
- `submitCountingData` is not part of this model. Its answer is the `response` parameter of `CountingPage.Counting.HandleSubmit`.
- Reading the survey from session storage and `JSON.parse` are left out. `CountingPage.Counting.LoadSurvey` takes what was found as `StoredSurvey`. A stored end time of JSON `null` is not separated from a missing one.
- CountingPage.Counting.HandleSubmit shows the generic failure for a missing id directly. `CountingPage.MissingIdIsGenericFailure` proves this is what the thrown error's message is classified as.
- The maximum password length is the parameter `maxLength`, because the constants file that defines it is not part of this model.
- Route path matching is modelled on whole text with a single trailing `:param` segment. Case-insensitive matching and trailing-slash handling of the routing library are left out.
- HTTP header names are compared case-sensitively. Browsers' case folding of header names is left out.
- Rendering is left out: markup, CSS class strings, icons, translations and `toLocaleString` of times.
- The drop-up geometry of the select dropdown is left out, because it depends on layout measurements.
- The persistence of the session store to local storage and its devtools wrapper are left out.
- Effect ordering and timers are left out. Interval firings are explicit `Tick` calls, and each effect is a method the caller runs.
- The browser's `a.click()` download and the object URL lifecycle are left out. `DownloadFile.DownloadOutcome` keeps the container check and the name.
- Request bodies (survey and user forms) are not carried in `HttpCall`. `BeginSubmit` returns the body next to the call.
- EditSurveyModal.AgentFormValue does not model an agent given as JSON `null`. The source would then read `null.id` and fail.
- Tabs.HandleKeyDown requires the focused tab to be in the strip, which it always is when the key comes from one of its tabs. The always-forwarded `onKeyDown` callback is left out.
- JavaScript numbers are modelled as integers. NaN, fractions and floating-point rounding are left out, except where an invalid date is the `None` of `toMillis`.

## Findings

| source | as written | input that shows it | evidently intended | confidence | as-written member | corrected member |
|---|---|---|---|---|---|---|
| src/shared/api/downloadFile.ts:32-34 | A GET download calls `api.get(url)` without `searchParams`. So `exportUsersCsv`, a GET with `{ search }`, never sends the search text. | `exportUsersCsv({ search: "bob" })` sends the same request as `exportUsersCsv({})`. | A GET forwards its `searchParams`, so the export is limited to the search. | not executed | DownloadFile.RequestFor, UserApi.ExportDropsSearch | DownloadFile.IntendedRequestFor, UserApi.IntendedExportSendsSearch |
