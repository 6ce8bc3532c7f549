# News admin console: session, permission-gated navigation and the role and news screens

This project models the core of a browser-based administration console for a
news platform, and proves properties of that model in Dafny.

- **Session and access guard** (`Auth`, `auth.dfy`). This covers the signed-in user, the bearer token and the `loading` flag. They are mirrored write-through into two local-storage keys, 'token' and 'user'. Also modelled:
  - startup: hydrate from storage, then refresh through `GET /auth/me`;
  - `login`, `logout` and `hasPermission`;
  - `updateUserRole`, which merges an edited role into the signed-in user when the normalised role ids match;
  - the request interceptor's `Authorization` header.

  Every transition is a function on a `Session` value. The `AuthProvider` class performs the same steps field by field, and each of its methods is proved equal to its transition function.
- **Sidebar** (`Navigation`, `navigation.dfy`). This covers the static menu tree and its filtering through the access guard:
  - a leaf is shown when its permission passes;
  - a group is shown when one of its children passes;
  - the rendered entries, including a group's "active" mark;
  - the open/closed map of the groups, toggled by a click and seeded open from the current path.
- **Role forms** (`RoleForms`, `RoleCreate`, `RoleEdit`). The role form, the permission checkbox toggle and the grouping of the permission catalogue by `group`. The create screen empties its form after a successful post. The edit screen:
  - loads the catalogue and the role concurrently;
  - fills the form with defaults for missing fields;
  - after a save, passes the returned role to the session.
- **News create screen** (`NewsCreate`). The article form and the tag list built from a free-text input: trimmed, with no duplicates, blank input ignored. Also the message line after a submit.
- **List screens** (`DataTable`, `RoleList`, `NewsList`). The server-side paging request (`start = (page - 1) * pageSize`, `length = pageSize`) and how a reply is read back (`data || []`, `recordsFiltered ?? recordsTotal ?? 0`). Also the handlers that move page, page size and search.
  - The role list requests at once from each handler.
  - The news list requests from an effect that runs when one of its dependencies has changed.

JavaScript value semantics the code relies on are written out in `Js` (`js.dfy`):
- missing properties;
- string falsiness, `||`, `??`, `String(undefined)`;
- `includes` and `filter`;
- `trim`, with the whitespace set of ECMA-262.

Every request to the backend is answered by an outcome the caller supplies (`Http.Response`: `Ok(data)` or `Failed(message)`). An asynchronous handler is one method that takes that outcome. There are three exceptions:
- the startup refresh (`Mount` / `FetchMeSettled`);
- the edit screen's two loads (`Mount` / `PermissionsSettled` / `RoleSettled`);
- the list screens' fetches: `RoleList.RoleListPage.FetchRoles` and its page and search handlers, and `NewsList.NewsListPage.FetchNews` and `RunEffect`, return the request; `FetchSettled` takes its outcome.

In those cases the in-between state is observable, or another event can come between the two steps.

Two behaviours of the code that a reader might not expect. The model keeps them, and a lemma exhibits each:
- **No staleness guard on the refresh.** The `/auth/me` request keeps no record of the token it was sent with. A reply that arrives after `logout()` still writes its user back into memory and into the 'user' key (`Auth.LateRefreshAfterLogout`).
- **A group's own permission is never read.** Whether a menu group shows depends only on its children (`Navigation.GroupShownIff`). For example, Admin Settings carries `permission: null` and shows whenever one of its links passes.

## Model

| member | source | states |
|---|---|---|
| `Js.Filter` | src/components/layout/Sidebar.js:216-218 | `filter` returns a subsequence of its input (original order) holding exactly the elements that pass; with `Js.FilterCounts`, every occurrence of a passing element is kept |
| `Js.FilterCounts` | src/pages/news/NewsCreatePage.jsx:63 | `filter` keeps each passing element as many times as it occurs and drops every occurrence of a failing one |
| `Js.Includes` | src/context/AuthContext.js:76 | `includes` is true exactly when the value is an element |
| `Js.Trim` | src/pages/news/NewsCreatePage.jsx:50-52 | `trim`; its contract is carried by `Js.TrimIsTrimmedSlice`, `Js.TrimIdempotent` and `Js.TrimEmptyIff` |
| `Js.TrimIsTrimmedSlice` | src/pages/news/NewsCreatePage.jsx:52 | `trim` returns a contiguous slice of its input that neither starts nor ends with whitespace, and everything cut before and after it is whitespace |
| `Js.TrimIdempotent` | src/pages/news/NewsCreatePage.jsx:52 | trimming twice is trimming once |
| `Js.TrimEmptyIff` | src/pages/news/NewsCreatePage.jsx:50 | `tagInput.trim() !== ""` fails exactly when every character is whitespace |
| `Http.ErrorText` | src/pages/roles/RoleCreatePage.js:74 | the server's message when it is truthy, otherwise the fallback, so a failure always shows non-empty text |
| `Auth.HasPermission` | src/context/AuthContext.js:73-77 | the access guard; its contract is carried by `Auth.UngatedAlwaysAllowed`, `Auth.FailsClosed` and `Auth.ExactMembership` |
| `Auth.UngatedAlwaysAllowed` | src/context/AuthContext.js:73-74 | a missing or empty permission key is allowed whoever is signed in |
| `Auth.FailsClosed` | src/context/AuthContext.js:73-75 | without a user, a role or a permission list, exactly the falsy keys are allowed |
| `Auth.ExactMembership` | src/context/AuthContext.js:73-77 | otherwise a key is allowed exactly when it is an element of the role's list |
| `Auth.AuthorizationHeader` | src/api/axiosClient.js:9-17 | the token a receiver reads back from the header (`Auth.BearerToken`) is the stored token when that is truthy, and there is none otherwise |
| `Auth.HeaderTracksSession` | src/api/axiosClient.js:9-17 | a session whose memory and storage agree sends, on every request, exactly the token it holds when that is truthy |
| `Auth.Hydrated` | src/context/AuthContext.js:11-32 | the mount effect's synchronous part; its contract is carried by `Auth.StartupWithoutToken`, `Auth.StartupCorruptUser`, `Auth.StartupWithToken` and `Auth.TransitionsKeepInSync` |
| `Auth.Refreshed` | src/context/AuthContext.js:35-48 | the settled `/auth/me`; its contract is carried by `Auth.RefreshOutcome`, `Auth.RefreshGrantsNewPermission` and `Auth.LateRefreshAfterLogout` |
| `Auth.AfterLogin` | src/context/AuthContext.js:53-62 | the state after `login`; its contract is carried by `Auth.LoginSuccess`, `Auth.LoginFailure` and `Auth.RestartRestoresLogin` |
| `Auth.LoginResult` | src/context/AuthContext.js:53-64 | what `login` returns or throws; its contract is carried by `Auth.LoginSuccess` and `Auth.LoginFailure` |
| `Auth.AfterLogout` | src/context/AuthContext.js:66-71 | the state after `logout`; its contract is carried by `Auth.LogoutClears` and `Auth.RestartAfterLogout` |
| `Auth.SessionRoleId` | src/context/AuthContext.js:84 | the session role's normalised id; its contract is carried by `Auth.RoleUpdateMismatch` and `Auth.MissingIdsMatch` |
| `Auth.UpdatedRoleId` | src/context/AuthContext.js:85 | the edited role's normalised id, `_id` first; its contract is carried by `Auth.RoleUpdateMismatch`, `Auth.MergedRoleOverlay` and `Auth.MissingIdsMatch` |
| `Auth.MergedRole` | src/context/AuthContext.js:89-96 | the spread of the edited role over the old one; its contract is carried by `Auth.MergedRoleOverlay` |
| `Auth.WithRoleUpdate` | src/context/AuthContext.js:80-101 | the state after `updateUserRole`; its contract is carried by `Auth.RoleUpdateMismatch`, `Auth.RoleUpdateMatch` and `Auth.RoleUpdateGrants` |
| `Auth.TransitionsKeepInSync` | src/context/AuthContext.js:11-101 | every transition keeps memory and storage in agreement (a token or user in memory is the one stored) |
| `Auth.StartupWithoutToken` | src/context/AuthContext.js:11-32 | with no stored token there is no `/auth/me`, `loading` ends at once, and a parseable stored user is still loaded |
| `Auth.StartupCorruptUser` | src/context/AuthContext.js:19-26 | a stored user that fails to parse leaves the user null |
| `Auth.StartupWithToken` | src/context/AuthContext.js:11-51 | with a stored token `/auth/me` is requested, the token is loaded, and `loading` stays true until the refresh settles |
| `Auth.RefreshOutcome` | src/context/AuthContext.js:35-48 | a successful refresh replaces and persists the user; a failed one keeps the cached user and storage; the token is untouched |
| `Auth.LoginSuccess` | src/context/AuthContext.js:53-64 | a successful login holds exactly the reply's token and user, in memory and in storage, and returns the user |
| `Auth.LoginFailure` | src/context/AuthContext.js:53-55 | a failed login changes nothing and passes the failure to the caller |
| `Auth.LogoutClears` | src/context/AuthContext.js:66-71 | logout clears token and user in memory and in storage; no Authorization header is sent afterwards |
| `Auth.RestartRestoresLogin` | src/context/AuthContext.js:11-61 | after a login with a non-empty token, a restart restores that token and user and refreshes |
| `Auth.RestartDropsEmptyToken` | src/context/AuthContext.js:15-32 | an empty token is stored but not restored: the restarted session has the user but no token |
| `Auth.RestartAfterLogout` | src/context/AuthContext.js:66-71 | a restart after logout gives an anonymous, settled session |
| `Auth.LateRefreshAfterLogout` | src/context/AuthContext.js:35-48 | a refresh settling after logout writes its user back into memory and storage (no staleness guard) |
| `Auth.PermissionsAfterLogin` | src/context/AuthContext.js:53-77 | after login a non-empty key is granted exactly when the reply's role lists it |
| `Auth.RefreshGrantsNewPermission` | src/context/AuthContext.js:34-48 | a permission granted server-side after the cache was written becomes effective once the refresh settles |
| `Auth.RoleUpdateMismatch` | src/context/AuthContext.js:80-87 | with no user, no role, or a different normalised role id, the role update changes nothing |
| `Auth.RoleUpdateMatch` | src/context/AuthContext.js:80-100 | on a match only `user.role` changes, to the merged role, and storage 'user' is rewritten |
| `Auth.MergedRoleOverlay` | src/context/AuthContext.js:89-96 | the merged role takes each present field of the update and keeps the old value otherwise; `id` becomes the normalised string |
| `Auth.RoleUpdateGrants` | src/context/AuthContext.js:80-100 | after an edit of the session's own role, its permissions are exactly the edited list |
| `Auth.MissingIdsMatch` | src/context/AuthContext.js:84-87 | two roles both lacking `id` and `_id` normalise to "undefined" and are taken as the same role |
| `Auth.AuthProvider.constructor` | src/context/AuthContext.js:6-9 | user and token null, `loading` true |
| `Auth.AuthProvider.Mount` | src/context/AuthContext.js:11-33 | the new state is the hydrated session; it reports whether `/auth/me` is requested; storage stays in sync |
| `Auth.AuthProvider.FetchMeSettled` | src/context/AuthContext.js:35-48 | the new state is the refreshed session |
| `Auth.AuthProvider.Login` | src/context/AuthContext.js:53-64 | the new state is the logged-in session; the result is the reply's user or its failure |
| `Auth.AuthProvider.Logout` | src/context/AuthContext.js:66-71 | the new state is the logged-out session |
| `Auth.AuthProvider.UpdateUserRole` | src/context/AuthContext.js:80-101 | the new state is the session with the role update applied |
| `Navigation.Shown` | src/components/layout/Sidebar.js:198-219 | whether an item renders; its contract is carried by `Navigation.LeafShownIff` and `Navigation.GroupShownIff` |
| `Navigation.VisibleItems` | src/components/layout/Sidebar.js:197-219 | the items that render; its contract is carried by `Navigation.VisibleKeepsOrder` and `Navigation.NoPermissionsOnlyDashboard` |
| `Navigation.RenderItem` | src/components/layout/Sidebar.js:198-257 | one rendered entry; its contract is carried by `Navigation.GroupEntryIff` |
| `Navigation.RenderMenu` | src/components/layout/Sidebar.js:196-259 | the rendered menu; its contract is carried by `Navigation.RenderMenuFaithful` |
| `Navigation.AnyStartsWith` | src/components/layout/Sidebar.js:222-224 | true exactly when some link's path is a prefix of the pathname |
| `Navigation.LeafShownIff` | src/components/layout/Sidebar.js:198-199 | a leaf is shown exactly when its permission passes |
| `Navigation.GroupShownIff` | src/components/layout/Sidebar.js:216-219 | a group is shown exactly when some child passes, whatever the group's own permission |
| `Navigation.VisibleKeepsOrder` | src/components/layout/Sidebar.js:197-219 | the shown items (and shown children) keep menu order; an item is in the result exactly when it is shown |
| `Navigation.GroupEntryIff` | src/components/layout/Sidebar.js:221-255 | a group is marked active exactly when a visible child's path prefixes the pathname; its submenu lists the visible children only when open |
| `Navigation.RenderMenuFaithful` | src/components/layout/Sidebar.js:197-258 | one rendered entry per shown item, in order |
| `Navigation.DashboardAlwaysShown` | src/components/layout/Sidebar.js:27-32 | Dashboard has no permission, so it is always the first entry |
| `Navigation.GatedHidden` | src/components/layout/Sidebar.js:198-219 | an item whose links all carry a real key is hidden from a user granted nothing |
| `Navigation.GatedItemsGated` | src/components/layout/Sidebar.js:33-146 | every item after Dashboard carries a real key on each of its links |
| `Navigation.GatedItemsHidden` | src/components/layout/Sidebar.js:33-146 | each item after Dashboard is hidden from a user granted nothing |
| `Navigation.NoPermissionsOnlyDashboard` | src/components/layout/Sidebar.js:26-147 | a user with no role, no permission list or an empty one sees only Dashboard |
| `Navigation.RoleManagerLinks` | src/components/layout/Sidebar.js:115-146 | example, a role holding only `role.browse`: a user granted only `role.browse` passes the Roles & Permissions and System Settings links and fails the Users and Activity Logs links |
| `Navigation.RoleManagerNoContentLeaves` | src/components/layout/Sidebar.js:33-114 | example, a role holding only `role.browse`: News, Media Library, Comments, Website Menu and Reports are each hidden from that user |
| `Navigation.RoleManagerSettings` | src/components/layout/Sidebar.js:115-146 | example, a role holding only `role.browse`: a user granted only `role.browse` sees "Roles & Permissions" and "System Settings" under Admin Settings, in that order |
| `Navigation.RoleManagerNoContentGroups` | src/components/layout/Sidebar.js:39-102 | example, a role holding only `role.browse`: the Articles and Pages groups are hidden from that user |
| `Navigation.RoleManagerNoContent` | src/components/layout/Sidebar.js:33-114 | example, a role holding only `role.browse`: none of the items between Dashboard and Admin Settings is shown to that user |
| `Navigation.RoleManagerMenu` | src/components/layout/Sidebar.js:26-147 | example, a role holding only `role.browse`: that user sees exactly Dashboard and Admin Settings; the group shows although its own permission is null |
| `Navigation.Toggled` | src/components/layout/Sidebar.js:175-177 | toggling flips whether the group is open and leaves every other key as it was |
| `Navigation.ToggleTwice` | src/components/layout/Sidebar.js:175-177 | toggling a group twice restores whether every group is open |
| `Navigation.SeedOpenMenus` | src/components/layout/Sidebar.js:163-171 | the built object holds `true` for exactly the keys of the groups (with a truthy key) having a child whose path prefixes the pathname |
| `Navigation.Sidebar.constructor` | src/components/layout/Sidebar.js:151 | no group has been opened or closed |
| `Navigation.Sidebar.ToggleMenu` | src/components/layout/Sidebar.js:175-177 | the open map becomes the toggled map |
| `Navigation.Sidebar.OnPathChange` | src/components/layout/Sidebar.js:162-173 | seeded groups are open afterwards, no group is closed, and keys that are not seeded keep their value |
| `RoleForms.WithField` | src/pages/roles/RoleCreatePage.js:55-57 | the named field takes the value; the other field and the permissions are unchanged |
| `RoleForms.Toggled` | src/pages/roles/RoleCreatePage.js:43-53 | the toggled list; its contract is carried by the six lemmas below: `ToggleRemoves`, `ToggleAppends`, `ToggleFlipsMembership`, `ToggleTwiceRestores`, `ToggleChangesCountByOne` and `ToggleKeepsDistinct` |
| `RoleForms.ToggleRemoves` | src/pages/roles/RoleCreatePage.js:43-53 | a ticked name is removed everywhere; the other names stay in order, each as many times as before |
| `RoleForms.ToggleAppends` | src/pages/roles/RoleCreatePage.js:43-53 | an unticked name is appended at the end |
| `RoleForms.ToggleFlipsMembership` | src/pages/roles/RoleCreatePage.js:43-53 | after a toggle the name is in the list exactly when it was not before |
| `RoleForms.ToggleTwiceRestores` | src/pages/roles/RoleCreatePage.js:43-53 | ticking and unticking a name restores the list |
| `RoleForms.ToggleKeepsDistinct` | src/pages/roles/RoleCreatePage.js:43-53 | a list without duplicates keeps none under toggling |
| `RoleForms.ToggleChangesCountByOne` | src/pages/roles/RoleCreatePage.js:43-53 | on a duplicate-free list a click changes the number of ticked names by exactly one, down when it was ticked and up otherwise |
| `RoleForms.FirstSeenOrder` | src/pages/roles/RoleCreatePage.js:37-41 | the first-seen group order lists exactly the groups present, and of two listed groups the earlier has an entry before any entry of the later |
| `RoleForms.GroupedStepNew` | src/pages/roles/RoleCreatePage.js:37-41 | meeting a new group opens its bucket and appends it to the key order, keeping the grouping exact |
| `RoleForms.GroupedStepKnown` | src/pages/roles/RoleCreatePage.js:37-41 | meeting a known group appends to its bucket, keeping the grouping exact |
| `RoleForms.GroupByGroup` | src/pages/roles/RoleCreatePage.js:37-41 | the buckets are keyed by exactly the groups present, each holds the entries of its group in order, the keys are listed once each in first-seen order (`RoleForms.FirstSeen`), and the sizes add up to the catalogue |
| `RoleForms.BucketIsFilter` | src/pages/roles/RoleCreatePage.js:37-41 | the bucket built entry by entry is the catalogue filtered to that group, so each bucket keeps its entries' catalogue order |
| `RoleForms.BucketsPartition` | src/pages/roles/RoleCreatePage.js:37-41 | an entry is in a group's bucket exactly when that is its group |
| `RoleCreate.RoleCreatePage.constructor` | src/pages/roles/RoleCreatePage.js:7-17 | empty form and catalogue, nothing loading or saving, no banner |
| `RoleCreate.RoleCreatePage.LoadPermissions` | src/pages/roles/RoleCreatePage.js:19-31 | error cleared first; success replaces the catalogue; failure keeps it and shows the server's message or "Failed to load permissions"; spinner ends |
| `RoleCreate.RoleCreatePage.TogglePermission` | src/pages/roles/RoleCreatePage.js:43-53 | the form's list becomes the toggled list and the checkbox flips |
| `RoleCreate.RoleCreatePage.HandleChange` | src/pages/roles/RoleCreatePage.js:55-57 | the form takes the typed value in the named field |
| `RoleCreate.RoleCreatePage.HandleSubmit` | src/pages/roles/RoleCreatePage.js:59-78 | exactly one banner afterwards; success shows "Role created successfully" and empties the form; failure keeps the form |
| `RoleCreate.RoleCreatePage.GroupedPermissions` | src/pages/roles/RoleCreatePage.js:37-41 | the grid groups the loaded catalogue exactly, groups in first-seen order |
| `RoleEdit.LoadedForm` | src/pages/roles/RoleEditPage.jsx:48-52 | the form filled from a role; its contract is carried by `RoleEdit.LoadedFormRoundTrip`, `RoleEdit.GrantedIsTicked` and `RoleEdit.TickedIffGuardAllows` |
| `RoleEdit.LoadedFormRoundTrip` | src/pages/roles/RoleEditPage.jsx:48-52 | a role carrying every field of a form loads back as exactly that form |
| `RoleEdit.GrantedIsTicked` | src/pages/roles/RoleEditPage.jsx:48-52 | a checkbox is ticked exactly when the stored role lists its permission; a role without a list ticks nothing |
| `RoleEdit.TickedIffGuardAllows` | src/pages/roles/RoleEditPage.jsx:48-52 | opening the signed-in user's own role ticks exactly the permissions the access guard grants that user |
| `RoleEdit.RoleEditPage.constructor` | src/pages/roles/RoleEditPage.jsx:14-25 | empty form and catalogue, nothing loading or saving, no banner |
| `RoleEdit.RoleEditPage.IsLoading` | src/pages/roles/RoleEditPage.jsx:115 | whether either load is still out; its behaviour is stated by the `Mount`, `PermissionsSettled` and `RoleSettled` rows below |
| `RoleEdit.RoleEditPage.Mount` | src/pages/roles/RoleEditPage.jsx:61-65 | both loads start, so the screen shows "Loading..." |
| `RoleEdit.RoleEditPage.PermissionsSettled` | src/pages/roles/RoleEditPage.jsx:28-39 | success replaces the catalogue; failure shows its error without clearing earlier ones; still loading while the role is out |
| `RoleEdit.RoleEditPage.RoleSettled` | src/pages/roles/RoleEditPage.jsx:42-59 | success fills the form with defaults; failure keeps it and shows "Failed to load role" or the server's message; still loading while the catalogue is out |
| `RoleEdit.RoleEditPage.TogglePermission` | src/pages/roles/RoleEditPage.jsx:74-84 | the form's list becomes the toggled list and the checkbox flips |
| `RoleEdit.RoleEditPage.HandleChange` | src/pages/roles/RoleEditPage.jsx:86-88 | the form takes the typed value in the named field |
| `RoleEdit.RoleEditPage.HandleSubmit` | src/pages/roles/RoleEditPage.jsx:90-113 | exactly one banner afterwards; success applies the returned role to the session; failure leaves the session alone; the form is kept |
| `RoleEdit.RoleEditPage.GroupedPermissions` | src/pages/roles/RoleEditPage.jsx:68-72 | the grid groups the loaded catalogue exactly, groups in first-seen order |
| `NewsCreate.WithField` | src/pages/news/NewsCreatePage.jsx:46-47 | a text input changes its own field only: that field reads back the typed value (`NewsCreate.FieldOf`), every other field, the tags and the content keep theirs |
| `NewsCreate.FormsAgree` | src/pages/news/NewsCreatePage.jsx:14-25 | a form is determined by its eight text fields, its tags and its content |
| `NewsCreate.WithFieldLaws` | src/pages/news/NewsCreatePage.jsx:46-47 | typing what a field already shows changes nothing, and of two inputs into one field the last wins |
| `NewsCreate.AddedTag` | src/pages/news/NewsCreatePage.jsx:49-58 | the tag list after Enter; its contract is carried by the `NewsCreate.AddedTag…` lemmas and `NewsCreate.RemoveUndoesAdd` |
| `NewsCreate.RemovedTag` | src/pages/news/NewsCreatePage.jsx:60-65 | the tag is gone; the other tags stay in order, each as many times as before |
| `NewsCreate.AddedTagWellFormed` | src/pages/news/NewsCreatePage.jsx:49-58 | adding keeps the tags distinct, non-empty and trimmed |
| `NewsCreate.RemovedTagWellFormed` | src/pages/news/NewsCreatePage.jsx:60-65 | removing keeps the tags distinct, non-empty and trimmed |
| `NewsCreate.AddedTagPresent` | src/pages/news/NewsCreatePage.jsx:49-58 | after Enter on a non-blank input its trimmed form is a tag and no tag was lost |
| `NewsCreate.BlankInputAddsNothing` | src/pages/news/NewsCreatePage.jsx:50 | an input of whitespace only adds nothing |
| `NewsCreate.AddedTagIgnoresPadding` | src/pages/news/NewsCreatePage.jsx:52 | an input and its trimmed form add the same tag |
| `NewsCreate.AddedTagIdempotent` | src/pages/news/NewsCreatePage.jsx:53-55 | the same input entered twice adds the tag once |
| `NewsCreate.RemoveUndoesAdd` | src/pages/news/NewsCreatePage.jsx:49-65 | removing a tag just added restores the list |
| `NewsCreate.NewsCreatePage.constructor` | src/pages/news/NewsCreatePage.jsx:14-30 | empty fields, no tags, status "draft", no message |
| `NewsCreate.NewsCreatePage.HandleChange` | src/pages/news/NewsCreatePage.jsx:46-47 | the form takes the value in the named field; tags stay well formed |
| `NewsCreate.NewsCreatePage.SetContent` | src/pages/news/NewsCreatePage.jsx:36-38 | the content becomes the editor's HTML |
| `NewsCreate.NewsCreatePage.SetTagInput` | src/pages/news/NewsCreatePage.jsx:206 | the tag input takes the typed text |
| `NewsCreate.NewsCreatePage.HandleAddTag` | src/pages/news/NewsCreatePage.jsx:49-58 | only Enter on a non-blank input acts: the trimmed input joins the tags unless present, and the input clears even on a duplicate; an Enter left unhandled submits the form, which the caller models by calling `HandleSubmit` next |
| `NewsCreate.NewsCreatePage.RemoveTag` | src/pages/news/NewsCreatePage.jsx:60-65 | the tag leaves the list; the tags stay well formed |
| `NewsCreate.NewsCreatePage.HandleSubmit` | src/pages/news/NewsCreatePage.jsx:67-86 | the message always shows afterwards: "News article created successfully." styled success, or the server's message or "Failed to create news." styled error |
| `DataTable.PageRequest` | src/pages/roles/RoleListPage.jsx:18-27 | the request for a page; its contract is carried by `DataTable.PageWindow`, `DataTable.PagesAreAdjacent` and `DataTable.RowOnExactlyOnePage` |
| `DataTable.RowsOf` | src/pages/roles/RoleListPage.jsx:29 | the rows read from a reply; its contract is carried by `DataTable.ReadBackRoundTrip` and `DataTable.ReadBackDefaults` |
| `DataTable.TotalRows` | src/pages/roles/RoleListPage.jsx:30 | the row count read from a reply; its contract is carried by `DataTable.ReadBackRoundTrip`, `DataTable.ReadBackDefaults` and `DataTable.ZeroFilteredIsKept` |
| `DataTable.ReadBackRoundTrip` | src/pages/roles/RoleListPage.jsx:28-31 | a reply served with rows, a filtered count and a total reads back as exactly those rows and the filtered count |
| `DataTable.ReadBackDefaults` | src/pages/news/NewsListPage.jsx:29-32 | a reply with fields missing still reads back: no rows, then the total or 0 as the count; a count read back is never negative when the server's are not |
| `DataTable.ZeroFilteredIsKept` | src/pages/news/NewsListPage.jsx:31 | a filtered count of 0 is kept, not replaced by the total |
| `DataTable.PageWindow` | src/pages/roles/RoleListPage.jsx:18-27 | page n's request starts at the non-negative multiple (n-1) of the page size and asks for one page; n reads back from the start |
| `DataTable.PagesAreAdjacent` | src/pages/news/NewsListPage.jsx:19-28 | the next page starts exactly where this one ends |
| `DataTable.RowOnExactlyOnePage` | src/pages/news/NewsListPage.jsx:19-28 | every row index lies in the window of exactly one page |
| `RoleList.PermissionCount` | src/pages/roles/RoleListPage.jsx:66 | the "Permissions count" column; its contract is carried by `RoleList.CountMatchesEditForm` and `RoleList.CountAfterOneToggle` |
| `RoleList.CountMatchesEditForm` | src/pages/roles/RoleListPage.jsx:66 | the count shown for a role equals the number of boxes the edit screen ticks for it |
| `RoleList.CountAfterOneToggle` | src/pages/roles/RoleListPage.jsx:66 | saving the edit form after one click on a duplicate-free list moves the count by exactly one |
| `RoleList.RoleListPage.constructor` | src/pages/roles/RoleListPage.jsx:8-13 | no rows, page 1 of 10, no search |
| `RoleList.RoleListPage.FetchRoles` | src/pages/roles/RoleListPage.jsx:15-27 | the spinner starts; the request uses each argument or, when missing, the current state |
| `RoleList.RoleListPage.FetchSettled` | src/pages/roles/RoleListPage.jsx:28-35 | success replaces rows and count; failure keeps both; the spinner stops either way |
| `RoleList.RoleListPage.Mount` | src/pages/roles/RoleListPage.jsx:38-41 | requests page 1 with no search |
| `RoleList.RoleListPage.HandlePageChange` | src/pages/roles/RoleListPage.jsx:43-46 | the page moves and exactly the shown page is requested |
| `RoleList.RoleListPage.HandlePerRowsChange` | src/pages/roles/RoleListPage.jsx:48-52 | page size and page change and exactly the shown page is requested |
| `RoleList.RoleListPage.HandleSearchChange` | src/pages/roles/RoleListPage.jsx:54-59 | a new search goes back to page 1 and requests from row 0 |
| `NewsList.EffectFetch` | src/pages/news/NewsListPage.jsx:41-43 | the effect after a render; its contract is carried by `NewsList.EffectRequestsShownPage`, `NewsList.UnchangedDepsAreQuiet` and `NewsList.NewSearchRefetchesFromStart` |
| `NewsList.EffectRequestsShownPage` | src/pages/news/NewsListPage.jsx:41-43 | the effect fetches exactly when a dependency changed, and its request reads back as the page number, page size and search the table shows |
| `NewsList.FirstRenderFetchesFirstPage` | src/pages/news/NewsListPage.jsx:8-13 | the first render requests rows 0 to 9 with no search |
| `NewsList.NewSearchRefetchesFromStart` | src/pages/news/NewsListPage.jsx:54-58 | a new search text always triggers a request from row 0 |
| `NewsList.UnchangedDepsAreQuiet` | src/pages/news/NewsListPage.jsx:41-47 | choosing the page already shown, or retyping the same search on page 1, requests nothing |
| `NewsList.NewsListPage.constructor` | src/pages/news/NewsListPage.jsx:8-13 | no rows, page 1 of 10, no search, effect not yet run |
| `NewsList.NewsListPage.FetchNews` | src/pages/news/NewsListPage.jsx:15-28 | the spinner starts; a missing argument defaults to 1, 10 and "", not to the state |
| `NewsList.NewsListPage.FetchSettled` | src/pages/news/NewsListPage.jsx:29-36 | success replaces rows and count; failure keeps both; the spinner stops either way |
| `NewsList.NewsListPage.RunEffect` | src/pages/news/NewsListPage.jsx:41-43 | requests what `EffectFetch` decides and records the dependencies it ran with |
| `NewsList.NewsListPage.HandlePageChange` | src/pages/news/NewsListPage.jsx:45-47 | only the page changes |
| `NewsList.NewsListPage.HandlePerRowsChange` | src/pages/news/NewsListPage.jsx:49-52 | page size and page change together, so one effect run follows |
| `NewsList.NewsListPage.HandleSearchChange` | src/pages/news/NewsListPage.jsx:54-58 | the search changes and the page goes back to 1 |

## Left out

- The HTTP client, JSON (de)serialisation and the backend are not modelled. Each request is answered by a supplied outcome, and `JSON.parse` of the stored user is reduced to "parses to this user" or "corrupt".
- `null` and a missing property are one case (`None`). A parsed `null` user is not distinguished from an unset key. Two consequences in `updateUserRole`:
  - `String(null)` is "null", but the model prints every absent id as "undefined". A session role with `id` and `_id` both `null` therefore matches an edited role with `_id: ""` and no `id` in the model (`Auth.MissingIdsMatch`), but not in the code.
  - A spread copies an explicit `null` field of the edited role over the old value, whereas `Auth.MergedRole` keeps the old value for any absent field.
- The login reply is assumed to carry a token string and a user. A reply without them, which would store "undefined", is not modelled. The email and password are only forwarded to the backend, so they are not parameters.
- Interleavings of concurrent requests are modelled only where two steps are exposed (startup refresh, edit-screen loads, list fetches). There is no counter of requests in flight: on the list screens the first reply to settle stops the spinner, and the last one to settle wins.
- Timers and routing are left out: the delayed navigation after a successful save (`setTimeout` then `navigate`), `handleCancel`, and the route id of the edit screen.
- Rendering is left out, beyond the sidebar entries, the checkbox state, `isLoading` and the message styling. That excludes icons, CSS classes, the mouse-down handler, the mobile open/close props, avatar and role captions, and the other table columns.
- `RoleForms.GroupByGroup` models the grouping object with first-seen key order. JavaScript's `Object.keys` lists integer-like keys first, in ascending order. A group named like "constructor" would also collide with an inherited property and throw. Neither is modelled.
- `NewsCreate.NewsCreatePage.HandleAddTag` reads the tag list of the current render, the same list as the functional update sees in a sequential model. A second Enter before a re-render is not modelled.
- `NewsList.NewsListPage.HandlePerRowsChange` and `NewsList.NewsListPage.HandleSearchChange` assume React batches the two state updates into one render. Then the effect runs once.
- The layout, route guard, login screen, user screens, dashboard, route progress bar and coming-soon page are not part of this model.
