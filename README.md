# Admin console core, modelled in Dafny

This project models the client side of an administration console for a
company's business applications. The console lets an administrator sign in
through an external identity provider, manage users and their roles, and
configure the registered applications. The model covers:

- the session: the authentication reducer, the provider's start-up,
  sign-in, sign-out and token-refresh flows, and the token store they share
  with the HTTP client;
- the HTTP client's two interceptors: the bearer header, and one refresh
  and replay after a 401 response;
- the sign-in callback page;
- the four editors (profile, user, role-assignment, edit-application) and the
  parts of the page frame that compute something (breadcrumbs, the active
  navigation entry);
- the list logic of the users, roles and applications pages.

Backend answers are inputs to the model, never computed. Each endpoint
answers with a body (`success`, `data`, `message`) or with the `Error` its
wrapper throws, which carries the error body's optional `message`
(`AuthService.WrapperAnswer`). The sign-in endpoints have their own answer
types (`VerifyAnswer`, `RefreshAnswer`, `LogoutAnswer`). Browser storage is
the `TokenStore.LocalStorage` class. Navigation, redirects and toasts are
recorded in fields.

A component becomes a class whose fields are its state hooks, and its
handlers become methods. The pure mappings and filters become functions,
with lemmas relating them.

Module and file layout (one module per source file):

| file | module | source |
|---|---|---|
| wrappers.dfy, js_strings.dfy | Wrappers, JsStrings | JavaScript semantics the code relies on: truthiness, `a \|\| b`, `trim`, `\s`, `\d`, ASCII `toUpperCase` |
| token_store.dfy | TokenStore | `localStorage` |
| auth_service.dfy | AuthService | src/services/authService.js, the answers and error messages of the wrappers |
| api_client.dfy | ApiClient | src/services/authService.js, the interceptors |
| auth_reducer.dfy, auth_context.dfy | AuthReducer, AuthContext | src/context/AuthContext.js |
| toast.dfy, callback_page.dfy | Notifications, CallbackPage | src/pages/CallbackPage.js |
| profile_edit.dfy | ProfileEdit | src/components/ProfileEditModal.js |
| user_modal.dfy | UserModal | src/components/UserModal.js |
| role_assignment.dfy | RoleAssignment | src/components/RoleAssignmentModal.js |
| edit_application.dfy | EditApplication | src/components/EditApplicationModal.js |
| layout.dfy | Layout | src/components/Layout.js |
| users_page.dfy, roles_page.dfy, applications_page.dfy | UsersPage, RolesPage, ApplicationsPage | src/pages/ |

Where the code behaves differently from what its names suggest, the model follows the code:

- After a start-up refresh the session's `user` and `isAuthenticated` are left
  as they were. At mount they are null and false, so the session stays
  unauthenticated although a fresh access token is held. See
  `AuthReducer.RefreshedAtStartupStaysUnauthenticated`.
- For `VERIFY_TOKEN_SUCCESS` the reducer keeps the state's own tokens and
  ignores those in the payload. At mount the state's token is null, so after a
  successful start-up the session is authenticated but holds no token in
  memory. See `AuthReducer.VerifiedAtStartupHasNoToken`.
- `login` verifies the access token once and never tries a refresh.
- The users page hands the role dialog a signed-in user without a
  `systemRole`, so the dialog's gate refuses every scope on that page. See
  `UsersPage.PageUserCannotChangeRoles`.
- The user editor shows its success toast for any answer body, including
  `success: false`. A body without `data` then also throws when reading
  `data.user`. See `UserModal.OutcomeToasts`.
- A failed application fetch sets an error that no later successful fetch
  clears.

## Model

| member | source | states |
|---|---|---|
| AuthService.ThrownMessage | src/services/authService.js:76 | the message of a wrapper's thrown error is the backend's message when that is non-empty, else the wrapper's fallback; never empty |
| AuthService.LogoutResponse | src/services/authService.js:98-107 | `logout` never rejects: a 2xx reply's body is passed on unchanged, `success:false` included; a failed call gives `success:false` with the backend message or `'Logout error'`; success only from a 2xx body that says so |
| AuthService.CallError | src/services/authService.js:203-210 | the error a component shows for an unsuccessful call: a rejected body's `message` or the component fallback, or the thrown wrapper message; non-empty whenever the fallback is |
| TokenStore.LocalStorage.GetItem | src/services/authService.js:17 | returns the stored value exactly when the key is present |
| TokenStore.LocalStorage.SetItem | src/services/authService.js:44 | only that key changes, to the new value |
| TokenStore.LocalStorage.RemoveItem | src/services/authService.js:51-52 | only that key is removed |
| ApiClient.RequestConfig.constructor | src/services/authService.js:34-37 | a request starts with its own header and `_retry` unset |
| ApiClient.HttpClient.constructor | src/services/authService.js:6-12 | the client starts with no redirect and no refresh call |
| ApiClient.HttpClient.InterceptRequest | src/services/authService.js:15-21 | the header becomes `Bearer <authToken>` exactly when a token is stored at request time; otherwise it is untouched; `_retry` is kept |
| ApiClient.HttpClient.InterceptResponseError | src/services/authService.js:29-64 | a non-401 response or a retried request is rejected unchanged with no refresh and no storage change; `_retry` is set before refreshing; with no refresh token: redirect to `/login`, storage unchanged, original error; refresh success: `authToken` replaced, `refreshToken` kept, header updated, replay; refresh `success:false`: nothing changes and the original error is rejected; refresh thrown: both keys removed, redirect, refresh error rejected |
| ApiClient.HttpClient.Send | src/services/authService.js:15-64 | a request is sent at most twice and the refresh endpoint called at most once; a second attempt happens exactly after a 401 on a first attempt with a stored refresh token and a successful refresh, and then carries the new token |
| AuthReducer.Reduce | src/context/AuthContext.js:28-93 | only `LOGIN_SUCCESS` and `VERIFY_TOKEN_SUCCESS` sign a session in; only the two failure actions set a new error (their payload); only sign-in, the failures and `LOGOUT` change the refresh token |
| AuthReducer.LogoutYieldsSignedOut | src/context/AuthContext.js:78-82 | `LOGOUT` yields the initial state except `isLoading=false`, whatever the state before |
| AuthReducer.FailureClearsSession | src/context/AuthContext.js:66-76 | both failure actions null the user and both tokens, clear `isAuthenticated` and `isLoading`, and set `error` to the payload |
| AuthReducer.VerifySuccessKeepsTokens | src/context/AuthContext.js:49-56 | verify-success sets the user and `isAuthenticated` but keeps the state's tokens, not the payload's |
| AuthReducer.RefreshSuccessFrame | src/context/AuthContext.js:58-64 | refresh-success changes only `token`, `isLoading` (false) and `error` (null) |
| AuthReducer.ClearErrorAndUnknownFrame | src/context/AuthContext.js:84-91 | `CLEAR_ERROR` changes only `error`; an unknown action leaves the state unchanged |
| AuthReducer.RunPair | src/context/AuthContext.js:28-93 | dispatching two actions is reducing twice |
| AuthReducer.RunAppend | src/context/AuthContext.js:28-93 | dispatching `xs` then `ys` is dispatching `xs + ys` |
| AuthReducer.RunEndingInLogout | src/context/AuthContext.js:78-82 | any dispatch history ending in `LOGOUT` leaves the signed-out state |
| AuthReducer.ReducePreservesConsistent | src/context/AuthContext.js:28-93 | one reduction keeps "authenticated iff a user is attached" when success payloads carry a user |
| AuthReducer.RunPreservesConsistent | src/context/AuthContext.js:28-93 | so does every run of such actions |
| AuthReducer.InitialRunsConsistent | src/context/AuthContext.js:5-12 | every such run from the initial state is consistent |
| AuthReducer.MissingPrincipalBreaksConsistent | src/context/AuthContext.js:49-56 | a verify-success with a null user breaks the invariant, so the payload condition is needed |
| AuthReducer.VerifiedAtStartupHasNoToken | src/context/AuthContext.js:110-123 | after start-up verification succeeds the session is authenticated but its token is still null |
| AuthReducer.RefreshedAtStartupStaysUnauthenticated | src/context/AuthContext.js:211-223 | after a start-up refresh the session holds the token but is not authenticated |
| AuthContext.LoginFailureMessage | src/context/AuthContext.js:161-187 | the message `login` reports is the fallback for a `success:false` answer and the thrown message otherwise; never empty |
| AuthContext.RefreshFailureMessage | src/context/AuthContext.js:211-232 | the rejection message of `refreshAccessToken`; never empty |
| AuthContext.AuthProvider.constructor | src/context/AuthContext.js:5-12 | the provider starts in the initial state with nothing dispatched or called |
| AuthContext.AuthProvider.Dispatch | src/context/AuthContext.js:100 | the state becomes the reducer's result and the action is logged |
| AuthContext.AuthProvider.Logout | src/context/AuthContext.js:192-208 | both keys are removed and `LOGOUT` dispatched whatever the backend answers; the backend is called only when a refresh token is stored |
| AuthContext.AuthProvider.RefreshAccessToken | src/context/AuthContext.js:211-234 | success stores and dispatches the new access token and leaves the refresh token; failure logs out and rejects with the failure message |
| AuthContext.AuthProvider.InitializeAuth | src/context/AuthContext.js:103-152 | no stored token: no backend call, ends by a failure with no error; verify success signs in; refresh tried only on a `success:false` verify with a refresh token; every failure removes both keys and ends in the `'Session expired'` session |
| AuthContext.AuthProvider.Login | src/context/AuthContext.js:154-190 | success writes both tokens, then dispatches `LOGIN_SUCCESS`, and returns success; failure writes nothing and returns the message |
| AuthContext.AuthProvider.ClearError | src/context/AuthContext.js:236-238 | only `error` changes |
| CallbackPage.Callback.constructor | src/pages/CallbackPage.js:10-11 | the page starts unprocessed and processing |
| CallbackPage.Callback.Effect | src/pages/CallbackPage.js:13-50 | a second run changes nothing and dispatches nothing; an `error` param or a missing token fails without calling `login` or dispatching, with the `message` param or `'Authentication failed'`; login success stores both tokens, leaves the signed-in session and dispatches `LOGIN_START` and `LOGIN_SUCCESS`, then goes to `/dashboard`; a failed login leaves the `LOGIN_FAILURE` session with the login error and goes to `/login`; `isProcessing` ends false |
| CallbackPage.Callback.Fail | src/pages/CallbackPage.js:40-44 | the catch clause: the error toast reads the message, or `'Authentication failed'` when it is empty, and the page goes to `/login` |
| ProfileEdit.Digits | src/components/ProfileEditModal.js:39 | the result holds only digits and is no longer than the input |
| ProfileEdit.FormatPhoneNumber | src/components/ProfileEditModal.js:37-49 | the formatted text is at most 14 characters, empty exactly when the input has no digit, and the bare digits while there are at most three |
| ProfileEdit.DigitsOfDigits | src/components/ProfileEditModal.js:39 | stripping non-digits from a digit string changes nothing |
| ProfileEdit.FormatKeepsLeadingDigits | src/components/ProfileEditModal.js:37-49 | the output's digits are exactly the first min(n, 10) input digits |
| ProfileEdit.FormatAtMostFourteen | src/components/ProfileEditModal.js:37-49 | the output is at most 14 characters |
| ProfileEdit.FormatShape | src/components/ProfileEditModal.js:40-48 | up to 3 digits unchanged; 4-6 digits `(ddd) ` then the rest; 7 or more `(ddd) ddd-` then digits 7 to 10 |
| ProfileEdit.FormatIdempotent | src/components/ProfileEditModal.js:37-49 | formatting a formatted number changes nothing |
| ProfileEdit.SetField | src/components/ProfileEditModal.js:51-66 | only the named field takes the new value |
| ProfileEdit.LoadForm | src/components/ProfileEditModal.js:21-29 | missing fields load as `''` and a missing visibility as `'team_only'` |
| ProfileEdit.ContactCardIffLoadedFields | src/components/ProfileEditModal.js:31 | the contact card shows on load iff phone number, job title or department is non-empty |
| ProfileEdit.ProfileEditor.constructor | src/components/ProfileEditModal.js:5-17 | the editor starts with the empty form and no card |
| ProfileEdit.ProfileEditor.Open | src/components/ProfileEditModal.js:19-35 | with a user and an open modal the form is loaded and the card flag computed, and the banners cleared; otherwise nothing changes |
| ProfileEdit.ProfileEditor.HandleChange | src/components/ProfileEditModal.js:51-66 | the phone number is stored formatted and every other field verbatim |
| ProfileEdit.ProfileEditor.Save | src/components/ProfileEditModal.js:68-91 | success sets the card flag and the banner and schedules the close; a rejected body or a thrown call sets the message or `'Failed to update profile'`; `loading` ends false |
| UserModal.LoadForm | src/components/UserModal.js:20-42 | an existing user loads with `''` defaults and `isActive` iff status `'active'` or `isActive===true`; no user gives the blank form with `isActive=true` |
| UserModal.MatchHasNoWhitespace | src/components/UserModal.js:77 | an email the pattern accepts holds no whitespace |
| UserModal.PaddedEmailFails | src/components/UserModal.js:77-79 | the pattern is tested untrimmed, so a padded email is refused |
| UserModal.MatchingEmailIsTrimmed | src/components/UserModal.js:77-81 | the two email errors are exclusive: an accepted email is its own trimmed form, never blank |
| UserModal.EmailExamples | src/components/UserModal.js:77 | `a@b.c` is accepted and ` a@b.c` refused |
| UserModal.BuildSubmitData | src/components/UserModal.js:101-117 | all fields trimmed, an empty HubSpot id sent as null, a Google id only in create mode and only when not blank |
| UserModal.OutcomeToasts | src/components/UserModal.js:110-127 | any body gives the success toast, and an error after it when the body has no `data`; a thrown call gives only the error |
| UserModal.UserEditor.constructor | src/components/UserModal.js:5-16 | the editor starts blank with no errors |
| UserModal.UserEditor.Open | src/components/UserModal.js:20-44 | the form is loaded and the errors cleared |
| UserModal.UserEditor.HandleInputChange | src/components/UserModal.js:46-60 | the value is stored and only that field's error is blanked, and only if it had one |
| UserModal.EmailMatches | src/components/UserModal.js:79 | an accepted address holds an `@` and at least five characters |
| UserModal.FieldErrors | src/components/UserModal.js:62-81 | the map has keys only among the four validated fields, and a blank email always has an entry |
| UserModal.FieldErrorsRules | src/components/UserModal.js:62-81 | the error map `validateForm` builds has one entry per failed rule and only those keys: a blank first, last or display name gets its "is required" message; the email gets an entry exactly when it does not match the pattern, `'Email is required'` when blank and `'Invalid email format'` otherwise |
| UserModal.FieldErrorsEmptyIffValid | src/components/UserModal.js:62-87 | the error map is empty exactly when the three names are non-blank and the email is non-blank and matches |
| UserModal.BlankEmailFails | src/components/UserModal.js:77-80 | a blank email never matches the pattern, so the "required" branch is the only one a blank email can take |
| UserModal.UserEditor.ValidateForm | src/components/UserModal.js:62-87 | the stored errors become the rule-by-rule map and the answer is true iff that map has no keys; nothing else changes |
| UserModal.UserEditor.HandleSubmit | src/components/UserModal.js:90-130 | the displayed errors become the rule-by-rule map of the form; an invalid form sends nothing; a valid one sends the built data to the update or create endpoint and ends with `loading=false` |
| UserModal.UserEditor.Save | src/components/UserModal.js:96-129 | after validation: exactly one call is appended, to the update endpoint with the user's id in edit mode and to the create endpoint otherwise, carrying the trimmed form; the toasts and saved users follow the answer; the errors map is left as validation set it; `loading` ends false |
| UserModal.UserEditor.ReportOutcome | src/components/UserModal.js:110-127 | the toasts are `OutcomeToasts`; the saved user is reported only when the body has `data` |
| RoleAssignment.Find | src/components/RoleAssignmentModal.js:124-126 | finds an entry iff one satisfies the predicate, and then the first one |
| RoleAssignment.CanChangeRole | src/components/RoleAssignmentModal.js:104-131 | the gate throws exactly when nobody is signed in and an application scope is asked about; it allows only administrators, or application managers in an application scope |
| RoleAssignment.GlobalScopeOnlyForAdministrators | src/components/RoleAssignmentModal.js:111-114 | the global scope is allowed iff the signed-in user is an administrator |
| RoleAssignment.AdministratorAlwaysAllowed | src/components/RoleAssignmentModal.js:116-119 | an administrator is allowed in every scope |
| RoleAssignment.ManagerAllowedIffManagesApp | src/components/RoleAssignmentModal.js:121-128 | an app manager is allowed for an application iff their own list holds a manager entry for it |
| RoleAssignment.OthersDenied | src/components/RoleAssignmentModal.js:130 | every other role is denied |
| RoleAssignment.NobodySignedInThrowsForAppScope | src/components/RoleAssignmentModal.js:122 | with nobody signed in, an application scope throws |
| RoleAssignment.ScopeRole | src/components/RoleAssignmentModal.js:199-210 | global: the user's role when truthy, otherwise (no user, or a falsy role) `'user'`; an application: the role of the first entry for that application when truthy, `'user'` when that role is falsy or no entry exists; never empty |
| RoleAssignment.ActiveAppOptions | src/components/RoleAssignmentModal.js:217 | exactly the applications with `isActive` or `is_active` |
| RoleAssignment.ActiveAppOptionsAppend | src/components/RoleAssignmentModal.js:217 | the option filter keeps order |
| RoleAssignment.RoleBadgeClass | src/components/RoleAssignmentModal.js:80-90 | the red badge exactly for administrators, the blue one exactly for application managers, the grey one for every other role or none |
| RoleAssignment.RoleDescription | src/components/RoleAssignmentModal.js:92-102 | one text exactly for administrators, one exactly for application managers, the `'user'` text for every other role or none |
| RoleAssignment.SaveDisabled | src/components/RoleAssignmentModal.js:331 | disabled while saving without consulting the gate; otherwise it throws with the gate or is the gate's answer negated |
| RoleAssignment.EnabledSaveIsPermitted | src/components/RoleAssignmentModal.js:331 | a pressable button means nothing is saving and the gate allows the change |
| RoleAssignment.UnknownRoleFallsBackToUser | src/components/RoleAssignmentModal.js:80-102 | any other role, or none, has the `'user'` badge and description |
| RoleAssignment.FindNamed | src/components/RoleAssignmentModal.js:63 | the first application with the id, and none only when no application has it |
| RoleAssignment.RoleAssignmentDialog.constructor | src/components/RoleAssignmentModal.js:5-10 | the dialog starts in the global scope |
| RoleAssignment.RoleAssignmentDialog.Open | src/components/RoleAssignmentModal.js:12-26 | with a user and an open dialog, the role is reset and the user's applications loaded from a body (`data \|\| []`); a thrown load keeps the list |
| RoleAssignment.RoleAssignmentDialog.ChangeScope | src/components/RoleAssignmentModal.js:199-210 | the scope is set and the role preselected for it |
| RoleAssignment.RoleAssignmentDialog.HandleSave | src/components/RoleAssignmentModal.js:28-78 | global scope calls the global endpoint, an application scope the per-application one with its id; success sets the banner and schedules the close; failure sets the message; `loading` ends false |
| Layout.Split | src/components/Layout.js:66 | `split('/')` never yields an empty list |
| Layout.NonEmpty | src/components/Layout.js:66 | `filter(Boolean)` keeps only non-empty strings |
| Layout.GetBreadcrumbs | src/components/Layout.js:65-79 | first crumb `{Home, '/'}`, then one per non-empty segment, named with its first letter upper-cased and linking to the path of the segments so far |
| Layout.SegmentsAreProper | src/components/Layout.js:66 | every segment is non-empty and slash-free |
| Layout.SegmentsOfJoinedPath | src/components/Layout.js:69-76 | the path built from proper segments splits back into them |
| Layout.CrumbHrefNamesPrefix | src/components/Layout.js:69-76 | crumb `i` links to the path of exactly the first `i` segments |
| Layout.CrumbHrefsNest | src/components/Layout.js:69-76 | each crumb's href is a proper prefix of the next one's |
| Layout.IsActive | src/components/Layout.js:251 | the match is exact: a page below an entry's href does not highlight that entry |
| Layout.AtMostOneActive | src/components/Layout.js:251 | an entry is active iff the path equals its href, so no path activates two entries |
| UsersPage.WithRole | src/pages/UsersPage.js:137-138 | exactly the users with that system role |
| UsersPage.FilteredUsers | src/pages/UsersPage.js:136-138 | `'all'` returns the list unchanged, any other value the users with that role |
| UsersPage.WithRoleAppend | src/pages/UsersPage.js:137-138 | the filter keeps the table's order |
| UsersPage.ReplaceById | src/pages/UsersPage.js:84-86 | every user with the saved id is replaced; the length and other users are unchanged |
| UsersPage.ReplaceByIdIdempotent | src/pages/UsersPage.js:84-86 | saving the same user twice is saving it once |
| UsersPage.ReplaceByIdKeepsIds | src/pages/UsersPage.js:84-86 | the ids of all rows are kept |
| UsersPage.StatusColor | src/pages/UsersPage.js:140-147 | `badge-success` exactly for active users, `badge-error` exactly for suspended ones, `badge-neutral` for every other status or none |
| UsersPage.RoleBadgeClass | src/pages/UsersPage.js:149-159 | `badge-error` exactly for administrators, `badge-primary` exactly for application managers, `badge-neutral` for every other role or none |
| UsersPage.UnknownBadgesAreNeutral | src/pages/UsersPage.js:140-159 | unknown statuses and roles, and missing ones, are `badge-neutral` |
| UsersPage.FormatDate | src/pages/UsersPage.js:161-167 | a missing or empty date reads `'Never'` |
| UsersPage.Count | src/pages/UsersPage.js:333-358 | a count is at most the number of users |
| UsersPage.DisjointCountsBounded | src/pages/UsersPage.js:340-352 | two exclusive counts add to at most the number of users |
| UsersPage.StatisticsBounded | src/pages/UsersPage.js:333-358 | the active, administrator, manager and HubSpot counts are each at most the total, and administrators plus managers too |
| UsersPage.RoleCountMatchesFilter | src/pages/UsersPage.js:340-352 | a role's count is the length of the table filtered by that role |
| UsersPage.PageUserCannotChangeRoles | src/pages/UsersPage.js:12-20 | the signed-in user the page builds has no system role, so the role gate refuses every scope |
| UsersPage.UsersList.constructor | src/pages/UsersPage.js:18-20 | the page starts empty and loading |
| UsersPage.UsersList.FetchData | src/pages/UsersPage.js:28-60 | a users body with success and data replaces the list, the applications only on their own success; any failure empties the list and raises one toast with the first failure's message, which for a users body with success but no data is the `Cannot read properties of undefined (reading 'users')` text; `loading` ends false |
| UsersPage.UsersList.HandleUserSaved | src/pages/UsersPage.js:81-91 | an edit replaces by id; an addition prepends the saved user |
| UsersPage.UsersList.RefreshUsers | src/pages/UsersPage.js:98-112 | only a success body with data replaces the list |
| RolesPage.ForApplication | src/pages/RolesPage.js:80-82 | exactly the roles of that application |
| RolesPage.FilteredRoles | src/pages/RolesPage.js:80-82 | `'all'` gives every role, any other value the roles with that application id |
| RolesPage.ForApplicationAppend | src/pages/RolesPage.js:80-82 | the filter keeps order |
| RolesPage.PermissionColor | src/pages/RolesPage.js:84-100 | a mapped permission gets its colour, any other the grey default |
| RolesPage.SeedPermissionsAreColoured | src/pages/RolesPage.js:9-100 | every permission of the page's roles has its own colour |
| RolesPage.TotalAssignments | src/pages/RolesPage.js:242 | the total is at least every role's count, and zero exactly when every role has no users |
| RolesPage.TotalAssignmentsAppend | src/pages/RolesPage.js:242 | the sum of user counts is additive over concatenation |
| RolesPage.TotalSplitsByApplication | src/pages/RolesPage.js:242 | the assignments of one application are at most the total |
| RolesPage.ApplicationIds | src/pages/RolesPage.js:248 | the distinct application ids are exactly those of some role |
| RolesPage.UniquePermissions | src/pages/RolesPage.js:254 | the distinct permissions are exactly the union of the roles' lists |
| RolesPage.ApplicationCountBounded | src/pages/RolesPage.js:248 | never more applications than roles |
| RolesPage.SeedTotals | src/pages/RolesPage.js:237-242 | the page shows 6 roles and 39 assignments |
| RolesPage.SeedApplicationIds | src/pages/RolesPage.js:248 | the page's roles belong to applications 1 to 4 |
| RolesPage.SeedApplicationCount | src/pages/RolesPage.js:248 | so the strip counts 4 applications |
| RolesPage.SeedColoursAreUsed | src/pages/RolesPage.js:254 | every colour-table entry is a permission of some role |
| RolesPage.SeedPermissionSet | src/pages/RolesPage.js:254 | the distinct permissions are exactly the colour table's keys |
| RolesPage.PermissionLabel | src/pages/RolesPage.js:196 | only the first `_` becomes a space |
| RolesPage.PermissionLabelExample | src/pages/RolesPage.js:196 | a second underscore stays: `a_b_c` reads `a b_c` |
| RolesPage.SeedMatrix | src/pages/RolesPage.js:302-308 | every role reads and writes; all but the sales representative manage |
| RolesPage.HasManage | src/pages/RolesPage.js:308 | any permission starting with `manage` ticks the manage column |
| RolesPage.MatrixDependsOnPermissions | src/pages/RolesPage.js:302-308 | the read, write and manage cells depend only on which permissions a role holds, not on their order or repetition |
| ApplicationsPage.ValidApps | src/pages/ApplicationsPage.js:102 | exactly the present applications with a `name` or a `displayName` |
| ApplicationsPage.ActiveApps | src/pages/ApplicationsPage.js:104-107 | exactly the applications whose `migration_required` is not truthy; missing settings mean active |
| ApplicationsPage.QueueApps | src/pages/ApplicationsPage.js:109-112 | exactly the applications whose `migration_required` is truthy |
| ApplicationsPage.PartitionCounts | src/pages/ApplicationsPage.js:104-112 | the two lists' lengths add up to the valid applications' |
| ApplicationsPage.ExactlyOneList | src/pages/ApplicationsPage.js:104-112 | each valid application is in exactly one list, the queue iff its flag is set |
| ApplicationsPage.MissingSettingsAreActive | src/pages/ApplicationsPage.js:105-106 | an application without settings is active |
| ApplicationsPage.ActiveAppsAppend | src/pages/ApplicationsPage.js:104-107 | the active list keeps order |
| ApplicationsPage.QueueAppsAppend | src/pages/ApplicationsPage.js:109-112 | the queue keeps order |
| ApplicationsPage.ValidAppsAppend | src/pages/ApplicationsPage.js:102 | the valid-application filter keeps order |
| ApplicationsPage.AvatarInitial | src/pages/ApplicationsPage.js:167 | one character, the upper-cased first of `displayName \|\| name \|\| 'A'` |
| ApplicationsPage.InitialOfValidApp | src/pages/ApplicationsPage.js:167-172 | a valid application's initial is the first letter of its title |
| ApplicationsPage.StatusColor | src/pages/ApplicationsPage.js:65-72 | `badge-success` exactly for active, `badge-warning` exactly for development, `badge-neutral` for everything else, `inactive` included |
| ApplicationsPage.PriorityColor | src/pages/ApplicationsPage.js:74-81 | one distinct badge for each of HIGH, MEDIUM and LOW, `badge-neutral` exactly for everything else |
| ApplicationsPage.EnvironmentColor | src/pages/ApplicationsPage.js:83-90 | one distinct style for each of production, staging and development, `badge-neutral` exactly for everything else |
| ApplicationsPage.ColoursDefaultToNeutral | src/pages/ApplicationsPage.js:65-90 | the status, priority and environment maps are total, `badge-neutral` by default |
| ApplicationsPage.ApplicationsList.constructor | src/pages/ApplicationsPage.js:7-9 | the page starts empty, loading and without error |
| ApplicationsPage.ApplicationsList.FetchApplications | src/pages/ApplicationsPage.js:19-31 | the list is replaced only by a body with success and data; a thrown call sets `'Failed to load applications'`; `loading` always ends false |
| ApplicationsPage.ApplicationsList.Render | src/pages/ApplicationsPage.js:114-128 | spinner while loading, then the error panel; a loaded page without an error shows the active and the migration-queue lists of the valid applications, which share them out |
| EditApplication.Normalise | src/components/EditApplicationModal.js:50-72 | `is_active` and `requires_approval` false only for an explicit false; domain and default role fall back to `'@prqexteriors.com'` and `'basic_user'`; the display name falls back through `displayName`, `display_name`, `name`, `''` |
| EditApplication.OnlyExplicitFalseDisables | src/components/EditApplicationModal.js:64-69 | a null or missing flag keeps the application active and approval required |
| EditApplication.CamelCaseActiveWins | src/components/EditApplicationModal.js:64 | a present camelCase flag is chosen even when null |
| EditApplication.AddUnique | src/components/EditApplicationModal.js:94-136 | the trimmed input is appended iff it is non-empty and absent; the box is cleared only when it was |
| EditApplication.AddUniqueKeepsNoDuplicates | src/components/EditApplicationModal.js:111-119 | adding keeps the list duplicate-free and grows it by at most one |
| EditApplication.AddUniqueKeepsClean | src/components/EditApplicationModal.js:111-119 | adding keeps every entry non-empty and trimmed |
| EditApplication.AddUniqueRejects | src/components/EditApplicationModal.js:111-119 | a blank or listed input changes neither the list nor the box |
| EditApplication.RemoveAll | src/components/EditApplicationModal.js:104-109 | every copy of the value is removed and every other value kept |
| EditApplication.RemoveAllAppend | src/components/EditApplicationModal.js:121-126 | removal keeps the others in order |
| EditApplication.RemoveAbsent | src/components/EditApplicationModal.js:121-126 | removing an absent value changes nothing |
| EditApplication.AddThenRemove | src/components/EditApplicationModal.js:111-126 | removing what was just added gives the list with that value removed, as before the add |
| EditApplication.ChangeEnvironment | src/components/EditApplicationModal.js:145-156 | only that field of that environment changes; an environment not yet listed starts from no fields |
| EditApplication.ChangeEnvironmentUndo | src/components/EditApplicationModal.js:145-156 | changing a field and changing it back restores the settings |
| EditApplication.Payload | src/components/EditApplicationModal.js:165-177 | the key and the environments go under `settings` |
| EditApplication.PayloadIgnoresName | src/components/EditApplicationModal.js:164-177 | two forms give the same payload iff they differ at most in `name` |
| EditApplication.Summary | src/components/EditApplicationModal.js:582-591 | the panel's content while auto-assignment is enabled, in exactly three cases: no approval needed, role-based auto-approval, everyone needs approval |
| EditApplication.ApplicationEditor.constructor | src/components/EditApplicationModal.js:5-33 | the editor starts with the default form and environments |
| EditApplication.ApplicationEditor.Open | src/components/EditApplicationModal.js:35-74 | an application in an open editor replaces the form by its normalisation |
| EditApplication.ApplicationEditor.HandleChange | src/components/EditApplicationModal.js:76-82 | the display name or description takes the typed value, or the active flag the checkbox state; nothing else changes |
| EditApplication.ApplicationEditor.GenerateKey | src/components/EditApplicationModal.js:264-267 | the read-only key changes only here, to the generated text; nothing else changes |
| EditApplication.KeyButtonLabel | src/components/EditApplicationModal.js:270 | the key button reads `Reset` exactly when a key is set and `Generate` exactly when none is |
| EditApplication.ApplicationEditor.HandleRuleChange | src/components/EditApplicationModal.js:84-92 | only that rule field changes |
| EditApplication.ApplicationEditor.TypeInto | src/components/EditApplicationModal.js:29-31 | only that list's input box changes |
| EditApplication.ApplicationEditor.Add | src/components/EditApplicationModal.js:94-136 | the list and its box become what `AddUnique` gives |
| EditApplication.ApplicationEditor.Remove | src/components/EditApplicationModal.js:104-143 | the list loses every copy of the value |
| EditApplication.ApplicationEditor.EnvironmentChange | src/components/EditApplicationModal.js:145-156 | the environments become `ChangeEnvironment`'s result |
| EditApplication.ApplicationEditor.Submit | src/components/EditApplicationModal.js:158-197 | the payload is sent with the id; success refreshes the parent and closes; a rejected body shows its message or `'Update failed'`; a thrown call the wrapper message; `saving` ends false |
| JsStrings.Trim | src/components/UserModal.js:65-75 | `trim()` removes exactly the leading and trailing whitespace |
| JsStrings.BlankIffAllWhitespace | src/components/UserModal.js:65-75 | a trimmed string is empty iff it was all whitespace |
| JsStrings.TrimIdempotent | src/components/UserModal.js:101-105 | trimming twice is trimming once |
| JsStrings.Capitalize | src/components/Layout.js:73 | the first character upper-cased, the rest unchanged |

## Left out

- JSX rendering, styling, animation and the theme toggle: markup with no decision logic.
- Network transport, the hosted sign-in SDK and the router: backend answers are inputs; navigation and `window.location.href` are recorded destinations.
- Concurrency: each flow runs sequentially; concurrent 401 refreshes are not serialised, as in the code.
- `setTimeout` delays: a scheduled close is recorded as a flag; the delayed `onRoleUpdated`/`onProfileUpdated` calls are not followed.
- `toLocaleDateString`, the "Active This Week" date arithmetic and uptime rounding: time, locale and floating point. `UsersPage.FormatDate` takes the formatter as a parameter; the applications page's date format is not modelled.
- `Date.now`/`Math.random` key generation in the environment editor: randomness. A generated key enters through `EnvChange.ApiKeyChange`.
- `EditApplication.ApplicationEditor.GenerateKey`: the `sk_global_…` text built from the application name, `Date.now` and `Math.random` is a parameter (clock and randomness); only its storing in the read-only key box is modelled.
- `JSON.parse` of string-encoded settings and rules: settings are already-parsed records.
- The thin REST wrappers beyond their error-message fallback: one backend call each.
- App.js, LoginPage.js, PortalPage.js, ViewIntegrationModal.js, DashboardPage.js: routing and static UI with no modelled decision logic. Toasts are recorded values, logging is not modelled.
- Calls made by verify/logout pass through the HTTP client's interceptors in the code; the session model takes their answers directly and does not compose the two.
- `RolesPage.PermissionColor`: a permission named like an object-prototype property (`constructor`, `toString`) finds the inherited member in the code; the model treats every unmapped name alike.
- `JsStrings.ToUpper`: upper-cases ASCII letters only; JavaScript's full Unicode case mapping is not modelled.
- `ApplicationsPage.AppSettings`: `migration_required` is modelled as its truthiness.
- `RoleAssignment.RoleAssignmentDialog.HandleSave`: `parseInt` of the selected scope is modelled by keeping the scope as its integer id; a non-numeric scope is not modelled.
- `UsersPage.UsersList.FetchData`: when both calls throw, the users call's message is the one reported (the earlier of the two rejections in the model). A body with `data` but no `users` field, which stores `undefined`, is not modelled. An applications body with success but no data, which stores `undefined`, keeps the old list in the model.
- `UsersPage.UsersList.HandleUserSaved`: a missing saved user is not modelled.
- `ProfileEdit.ProfileEditor.HandleChange` and `UserModal.UserEditor.HandleInputChange`: the generic `[name]: value` update is modelled for the fields the form renders.
