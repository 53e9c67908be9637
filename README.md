# Daycare portal: users service and client session, portals and forms

This project models the daycare portal's users service and its web client.
The service is an HTTP server that authenticates each request by its
bearer token. It creates a caller's user record on first sign-in
(`POST /api/bootstrap`). It returns the caller's profile
(`GET /api/profile`) and updates the caller's display name, phone and role
(`PUT /api/profile`). The client keeps a session context (who is signed
in, their profile, the last error), sends its requests through an HTTP
layer that attaches the token and turns failures into errors, and routes
each user by role to one of four portals. It also has a sign-up page, a
profile page, an IT ticket form, an issue list, the administrator's user
management panel, and the error notification card with its context.

The service is written as pure functions over a users table (a map from
uid to record). Each route handler is a function from the table, the
request and the store's behaviour to a response and the new table. A
`UsersTable` class holds the table; its methods are proved equal to those
functions. Token verification is a function parameter. A store call that
throws is a `StoreFault` parameter.

Each client component whose handlers change state is a class with the
component's state as fields. Every awaited call (identity provider, HTTP
request, clipboard) is a parameter holding its outcome, `Done(value)` or
`Threw(error)`. A timer firing is a method call of its own. A result that
arrives after the component has unmounted is a flag on the poll tick.

Modules, one per source file, plus two shared ones:

- `Outcomes`: `Option`, `Outcome`, JavaScript errors, and `a || b` on strings.
- `Text`: occurrence, `indexOf`, `split`/`join`, `trim`, ASCII upper-casing,
  base-36 numerals and UTF-16 length.
- `UserService`: `server/index.js`.
- `ApiClient`: `client/src/services/api.js`.
- `AuthSession`: `client/src/contexts/AuthContext.jsx`.
- `Issues`: the issue records and list operations shared by the issue pages.
- `IssuesListComponent`: `client/src/components/IssuesList.jsx`.
- `Portals`: `Dashboard.jsx`, `ParentPortal.jsx`, `EducatorPortal.jsx` and
  the guard shared by every portal page.
- `AdminPortalPage`: `client/src/pages/AdminPortal.jsx`.
- `ITPortalPage`: `client/src/pages/ITPortal.jsx`.
- `UserManagement`: `client/src/components/AdminUserManagement.jsx`.
- `ProfilePage`: `client/src/pages/ProfilePage.jsx`.
- `SignupPage`: `client/src/pages/SignupPage.jsx`.
- `SubmitTicket`: `client/src/components/SubmitTicket.jsx`.
- `ErrorNotification`: `client/src/components/ErrorNotification.jsx`.
- `ErrorContext`: `client/src/contexts/ErrorContext.jsx`.

Three behaviours of the code are easy to miss:

- The default display name is the part of the email before the first `@`
  with only its first character upper-cased. So `john.doe@x.com` gives
  `John.doe`, not `John Doe`.
- `PUT /api/profile` accepts a `role` field and stores it once it is one
  of Parent, Educator or Admin.
- A bootstrap whose token carries no email fails with 500. The error
  comes from splitting an undefined email.

## Model

| member | source | states |
|---|---|---|
| Text.JoinSplit | server/index.js:47 | Splitting a string on a separator and joining the parts with it gives the string back, so `split` loses nothing. |
| Text.TrimEmptyIffBlank | client/src/components/SubmitTicket.jsx:17 | `trim()` yields the empty string exactly when every character is ECMAScript white space. |
| Text.FromBase36UpperToBase36 | client/src/components/ErrorNotification.jsx:12 | The upper-cased base-36 numeral of a clock value reads back as that value. |
| Text.UpperBase36Injective | client/src/components/ErrorNotification.jsx:12 | Different clock values give different upper-cased base-36 numerals. |
| Text.Utf16Length | client/src/pages/SignupPage.jsx:26 | A password's `length` counts UTF-16 units: between its number of characters and twice that. |
| Text.Utf16LengthOfBmp | client/src/pages/SignupPage.jsx:26 | For characters of the basic plane the UTF-16 length is the number of characters. |
| Outcomes.OptOrElse | server/index.js:83-93 | `value \|\| default` over a possibly missing string: the value when it is present and non-empty, else the default. |
| UserService.ExtractToken | server/index.js:40-47 | A token exists exactly when the header is present and starts with "Bearer ". It is the text after that prefix up to the next "Bearer ". |
| UserService.ExtractTokenOfBearer | server/index.js:47 | A header made of "Bearer " and a token without that prefix in it yields exactly the token. |
| UserService.Authenticate | server/index.js:36-63 | A missing or non-bearer header gives 401 "No valid authorization token provided". A token the verifier refuses gives 401 "Invalid or expired token". Otherwise the caller is the verifier's identity. Every rejection is a 401. |
| UserService.NoBearerIgnoresVerifier | server/index.js:40-45 | Without a bearer header the verifier is never consulted: any two verifiers give the same rejection. |
| UserService.Format | server/index.js:83-93 | The user view copies id, uid, email and updatedAt. A missing display name, phone or role becomes the empty string. |
| UserService.DefaultDisplayName | server/index.js:118-119 | The default name has the length of the email's local part. Its first character is upper-cased and the rest is unchanged. The local part holds no "@" and is a prefix of the email. |
| UserService.DefaultDisplayNameExample | server/index.js:118-119 | "john.doe@x.com" gets the display name "John.doe". |
| UserService.Bootstrap | server/index.js:103-149 | A lookup fault gives 500 and changes nothing. An existing caller gets 200 "User already exists" with their record. A 201 happens exactly for a new caller with an email on a healthy store. It adds one record, with the store's new id and modification time, the email, the default name, an empty phone and the role Parent. A new caller without an email gets 500 "Failed to create or retrieve user record" with the message of the failed split. A new caller whose write fails gets 500 with the store's message. Every non-201 answer leaves the table unchanged. |
| UserService.BootstrapTwice | server/index.js:108-115 | Bootstrap is idempotent. After a successful bootstrap, a second one answers 200 with the same user and creates nothing. |
| UserService.BootstrapKeepsRows | server/index.js:122-133 | Bootstrap keeps every row filed under its own uid and never alters or drops an existing row. |
| UserService.BootstrapRoute | server/index.js:103 | A rejected request gets the authentication response and the table is unchanged. An authenticated one gets the bootstrap for the caller's identity. |
| UserService.GetProfile | server/index.js:152-176 | A lookup fault gives 500 "Failed to retrieve user profile". A missing row gives 404 "User profile not found". Otherwise the answer is 200 with the formatted row. |
| UserService.GetProfileRoute | server/index.js:152 | The profile route authenticates first and answers with its rejection or with the caller's profile. |
| UserService.InvalidRoleMessageText | server/index.js:198-206 | The 400 message lists the three valid roles: "Invalid role. Must be one of: Parent, Educator, Admin". |
| UserService.ApplyPatch | server/index.js:195-216 | Each field the body gives replaces the stored one and every other field is kept. uid and email never change, and the modification time is the store's. |
| UserService.PutProfile | server/index.js:179-230 | A lookup fault gives 500 and a missing row gives 404. A role outside Parent/Educator/Admin gives 400 with the role message. A 200 happens exactly for an existing row, a healthy store and a valid or absent role. Only that row changes, by the patch. A failed write for an existing row with an acceptable role gives 500 "Failed to update user profile" with the store's message. Every non-200 answer leaves the table unchanged. |
| UserService.PutProfileRoute | server/index.js:179 | The update route authenticates first and answers with its rejection or with the caller's update. |
| UserService.PutProfileNeverGrantsIT | server/index.js:198-206 | Whatever the body, the stored role afterwards is the old one or one of the three valid roles. A caller who was not IT never becomes IT. |
| UserService.PutProfileWithoutRole | server/index.js:195-208 | A body without a role keeps the stored role. A body with no field at all changes nothing but the modification time. |
| UserService.PutProfileKeepsRows | server/index.js:211-216 | The update keeps the set of uids and every row but the caller's. |
| UserService.UsersTable.Find | server/index.js:66-80 | The row found is exactly the one filed under the uid, and it carries that uid. |
| UserService.UsersTable.PostBootstrap | server/index.js:103-149 | The handler's response and new table are those of the bootstrap route's function, and the table stays well keyed. |
| UserService.UsersTable.GetProfile | server/index.js:152-176 | The handler answers as the profile route's function, with a status among 200, 401, 404 and 500. |
| UserService.UsersTable.PutProfile | server/index.js:179-230 | The handler builds its patch field by field and validates the role. It answers and updates as the update route's function. |
| ApiClient.BearerHeader | client/src/services/api.js:17-21 | The header the interceptor sends starts with "Bearer " followed by the token. |
| ApiClient.RequestConfig.AttachToken | client/src/services/api.js:15-27 | With a signed-in user the Authorization header is set to the bearer header and the other headers are kept. Without one the headers are untouched. |
| ApiClient.InterceptedTokenReachesVerifier | client/src/services/api.js:17-21 | The service extracts from the attached header the very token the client sent. Authentication then depends on the verifier alone. |
| ApiClient.SignedOutRequestRejected | client/src/services/api.js:15-27 | A request with no signed-in user carries no Authorization header and is refused with 401 before the table is read. |
| ApiClient.Settle | client/src/services/api.js:30-45 | A call resolves exactly for a 2xx response, with its body. Another status rejects with the body's message or "An error occurred". No response rejects with the "No response from server" message. Any other failure passes through unchanged. |
| ApiClient.ServiceErrorsKeepTheirMessage | client/src/services/api.js:33-36 | An error answer from the users service reaches the caller with the service's own message. |
| ApiClient.BootstrapUser | client/src/services/api.js:48-51 | `bootstrapUser` posts to /api/bootstrap. Its outcome is exactly the response interceptor's settlement of the reply (ApiClient.Settle), so it resolves only with an answered response's body. |
| ApiClient.GetProfileCall | client/src/services/api.js:53-56 | `getProfile` gets /api/profile. Its outcome is exactly the response interceptor's settlement of the reply (ApiClient.Settle), so it resolves only with an answered response's body. |
| ApiClient.UpdateProfileCall | client/src/services/api.js:58-61 | `updateProfile(data)` puts `data` to /api/profile. Its outcome is exactly the response interceptor's settlement of the reply (ApiClient.Settle), so it resolves only with an answered response's body. |
| ApiClient.BootstrapUserEndToEnd | client/src/services/api.js:48-51 | For a signed-in user with a valid token, `bootstrapUser` resolves exactly when the service answers 200 or 201. The user it resolves with is the stored row for that uid. |
| ApiClient.GetProfileBeforeBootstrap | client/src/services/api.js:53-56 | `getProfile` for a user with no row rejects with "User profile not found". |
| AuthSession.UserOf | client/src/contexts/AuthContext.jsx:72-81 | A response body has a user exactly when it is a user body. |
| AuthSession.AuthProvider.Signup | client/src/contexts/AuthContext.jsx:23-33 | The outcome is passed on. A failure's message becomes the context error, a success clears it, and the user and profile are not touched. |
| AuthSession.AuthProvider.Login | client/src/contexts/AuthContext.jsx:36-45 | As for sign-up: the outcome is passed on and the error is recorded or cleared, nothing else. |
| AuthSession.AuthProvider.SignInWithGoogle | client/src/contexts/AuthContext.jsx:48-57 | As for sign-up, for the Google popup. |
| AuthSession.AuthProvider.Logout | client/src/contexts/AuthContext.jsx:60-69 | A successful logout clears the profile and the error. A failed one keeps the profile, records the message and is passed on. |
| AuthSession.AuthProvider.FetchUserProfile | client/src/contexts/AuthContext.jsx:72-81 | On success the profile becomes the response's user and is returned. On failure the profile stays, the message is recorded and nothing is returned. |
| AuthSession.AuthProvider.OnAuthStateChanged | client/src/contexts/AuthContext.jsx:84-100 | After an auth event the current user is the event's user and loading is over. For a user the profile is fetched. For a sign-out it is cleared. |
| AuthSession.SessionLifeCycle | client/src/contexts/AuthContext.jsx:17-100 | The session starts loading with nobody signed in. A sign-in whose bootstrap succeeds ends loading with that user and profile. A successful logout and the sign-out event that follows clear both and leave no session error, and loading never comes back. |
| Issues.Listed | client/src/components/IssuesList.jsx:57 | `data.issues \|\| []`: the list received, or the empty list when it is missing. |
| Issues.WithoutId | client/src/components/IssuesList.jsx:72 | Removing an id keeps exactly the issues with another id and never lengthens the list. |
| Issues.WithoutIdAppend | client/src/components/IssuesList.jsx:72 | Removal distributes over concatenation, so the remaining issues keep their order. |
| Issues.WithoutAbsentId | client/src/components/IssuesList.jsx:72 | Removing an id no issue has changes nothing. |
| Issues.WithoutIdIdempotent | client/src/components/IssuesList.jsx:72 | Resolving the same id twice removes no more than once. |
| Issues.OpenCount | client/src/pages/ITPortal.jsx:109 | The open counter is at most the number of issues. |
| Issues.ResolvedCount | client/src/pages/ITPortal.jsx:151 | The resolved counter is at most the number of issues. |
| Issues.CountsAddUp | client/src/pages/ITPortal.jsx:109-158 | The open and resolved counters add up to the total shown. |
| Issues.OpenOnlyCounts | client/src/pages/ITPortal.jsx:109-151 | A list of open issues counts all of them as open and none as resolved. |
| IssuesListComponent.IssuesList.LoadIssues | client/src/components/IssuesList.jsx:52-64 | Loading asks with the current filter and ends not loading. Success shows the list received and clears the error. Failure keeps the list and shows "Failed to load issues: " and the message. |
| IssuesListComponent.IssuesList.Mount | client/src/components/IssuesList.jsx:17-24 | Mounting marks the component mounted and loads the issues. |
| IssuesListComponent.IssuesList.ShowResolvedChanged | client/src/components/IssuesList.jsx:17-24 | A new filter unmounts, remounts and loads with the new filter. |
| IssuesListComponent.IssuesList.PollTick | client/src/components/IssuesList.jsx:27-50 | A tick polls exactly when loading is over and the component is mounted. Its result replaces the list only when it succeeds before unmounting. A late result leaves the sync flag set. Errors and loading are never touched. |
| IssuesListComponent.IssuesList.HandleResolve | client/src/components/IssuesList.jsx:66-79 | The issue is marked resolving while the call runs and unmarked afterwards. Success removes the issue from the list. Failure keeps the list and shows "Failed to resolve issue: " and the message. |
| IssuesListComponent.IssuesList.View | client/src/components/IssuesList.jsx:81-100 | The spinner shows exactly while loading. The error box shows exactly when it is not loading and there is an error. Otherwise the list shows, with the sync banner when syncing. |
| IssuesListComponent.IssuesList.ResolveDisabled | client/src/components/IssuesList.jsx:175 | An issue's button is disabled exactly while that issue is resolving. |
| IssuesListComponent.MountThenResolve | client/src/components/IssuesList.jsx:17-79 | Mounting on a list and resolving one issue leaves exactly the other issues, in order, with that issue's button enabled again. |
| Portals.PortalRole | client/src/pages/Dashboard.jsx:27-37 | Each portal admits one of the four roles. |
| Portals.PortalRoleInjective | client/src/pages/Dashboard.jsx:27-37 | Different portals admit different roles. |
| Portals.Dispatch | client/src/pages/Dashboard.jsx:27-37 | Each of Admin, IT, Educator and Parent gets the portal admitting that role. Any other role gets the parent portal. |
| Portals.Dashboard | client/src/pages/Dashboard.jsx:14-37 | The dashboard sends a visitor to login exactly when the session check is over and nobody is signed in. It shows the spinner exactly until the profile is there, and then the dispatched portal. |
| Portals.PortalRedirect | client/src/pages/ParentPortal.jsx:14-22 | A portal's guard sends a visitor to login exactly when the check is over and nobody is signed in. It sends a visitor to the dashboard exactly when their profile's role is not the portal's. It never sends anywhere else. |
| Portals.PortalScreen | client/src/pages/ParentPortal.jsx:33-35 | A portal shows the spinner exactly until the profile is there. |
| Portals.ParentPortalPage | client/src/pages/ParentPortal.jsx:14-35 | The parent portal is the shared guard for the Parent role with the spinner. |
| Portals.EducatorPortalPage | client/src/pages/EducatorPortal.jsx:14-35 | The educator portal is the shared guard for the Educator role with the spinner. |
| Portals.DispatchedPortalAdmits | client/src/pages/Dashboard.jsx:27-37 | For each of the four roles, the portal the dashboard shows keeps the user there. |
| Portals.UnknownRoleBouncesToDashboard | client/src/pages/Dashboard.jsx:35-36 | A role outside the four is shown the parent portal, whose guard sends the user back to the dashboard. |
| Portals.GuardAgreesWithDispatch | client/src/pages/ParentPortal.jsx:14-22 | A signed-in user may stay on a portal exactly when it admits their role or the profile is not there yet. A portal that keeps a user with a profile is the one the dashboard picks. |
| Portals.PortalLogout | client/src/pages/ParentPortal.jsx:24-31 | Only a successful logout goes to the login page. It clears the profile and the session error; a failed one keeps the profile and records the failure's message as the session error. |
| AdminPortalPage.AdminPortal.Redirect | client/src/pages/AdminPortal.jsx:18-26 | The admin guard is the shared guard for the Admin role. It sends to the dashboard only a profile whose role is not Admin. |
| AdminPortalPage.AdminPortal.View | client/src/pages/AdminPortal.jsx:37-103 | The spinner shows exactly until the profile is there. The management panel gets the profile's uid. The resolved toggle and the issue list show exactly when the error logs are open, and the list gets the resolved flag. |
| AdminPortalPage.AdminPortal.ToggleErrorLogs | client/src/pages/AdminPortal.jsx:83 | The Show/Hide button flips the error-log section and nothing else. |
| AdminPortalPage.AdminPortal.ToggleResolvedIssues | client/src/pages/AdminPortal.jsx:89-96 | The filter button flips the resolved flag and nothing else. |
| AdminPortalPage.ToggleTwiceKeepsFilter | client/src/pages/AdminPortal.jsx:83-103 | Hiding and reopening the error logs reopens the issue list with the resolved flag it had. |
| ITPortalPage.Guard | client/src/pages/ITPortal.jsx:24-40 | The guard redirects exactly as the shared guard for the IT role does. It loads exactly when the check is over and an IT user's profile is there. |
| ITPortalPage.ITPortal.LoadIssues | client/src/pages/ITPortal.jsx:67-79 | Loading asks with the current filter and ends not loading. Success shows the list and clears the error. Failure keeps the list and shows the load error. |
| ITPortalPage.ITPortal.RunGuard | client/src/pages/ITPortal.jsx:24-40 | One run of the guard does what the guard decides. Only a load changes the list, the loading flag or the error. |
| ITPortalPage.ITPortal.ToggleShowResolved | client/src/pages/ITPortal.jsx:177-181 | The filter flips and the guard runs again. It reloads with the new filter exactly when the guard loads, and the reload ends not loading. A successful reload shows the list received and clears the error. A failed one keeps the list and shows the load error. Without a reload the list, the loading flag and the error stay. The resolving marks and the sync flag never change. |
| ITPortalPage.ITPortal.PollTick | client/src/pages/ITPortal.jsx:43-65 | A tick polls exactly when loading is over, the profile is there and the page is mounted. Its result replaces the list only when it succeeds before unmounting. Errors are never touched. |
| ITPortalPage.ITPortal.HandleResolve | client/src/pages/ITPortal.jsx:81-94 | The issue is marked resolving while the call runs and unmarked afterwards. Success removes it from the list. Failure keeps the list and shows the resolve error. |
| ITPortalPage.ITPortal.Counters | client/src/pages/ITPortal.jsx:109-158 | The counters are the open, resolved and total counts, and open plus resolved is the total. |
| ITPortalPage.ITPortal.View | client/src/pages/ITPortal.jsx:105-192 | The page spinner shows exactly until the profile is there. Then the list spinner follows loading and the error box shows exactly when there is an error. |
| ITPortalPage.HandleLogout | client/src/pages/ITPortal.jsx:96-103 | Only a successful logout goes to the login page and clears the profile and the session error. A failed one records its message as the session error. |
| ITPortalPage.FirstVisitThenResolve | client/src/pages/ITPortal.jsx:24-109 | An IT user's first visit loads the open issues. After one is resolved, the list holds the others, all counted open and none resolved. |
| UserManagement.FormFor | client/src/components/AdminUserManagement.jsx:51-55 | The edit form takes the user's name and phone, or the empty string. It takes the user's role, or Parent when the role is missing or empty. |
| UserManagement.SetField | client/src/components/AdminUserManagement.jsx:67-73 | A change sets the named field and keeps the others. |
| UserManagement.Edited | client/src/components/AdminUserManagement.jsx:88-90 | An edited entry keeps its uid and email and takes the form's three values. |
| UserManagement.MergeEdited | client/src/components/AdminUserManagement.jsx:86-92 | Saving keeps the number of results and every uid and email. Exactly the entries with the edited uid take the form's values. |
| UserManagement.MergeEditedIdempotent | client/src/components/AdminUserManagement.jsx:86-92 | Applying the same saved form twice changes nothing more. |
| UserManagement.MergeEditedAbsent | client/src/components/AdminUserManagement.jsx:86-92 | Saving for a uid no result has leaves the results alone. |
| UserManagement.AdminUserManagement.HandleSearch | client/src/components/AdminUserManagement.jsx:22-42 | A query of nothing but white space, which is what an empty `trim()` means (Text.TrimEmptyIffBlank), sends nothing. Otherwise the query goes out untrimmed and the results become the users received. An empty list shows "No users found matching your search". A missing list empties the results and fails on its length. A failure keeps the results and shows "Search failed: " and the message. |
| UserManagement.AdminUserManagement.HandleEditClick | client/src/components/AdminUserManagement.jsx:44-58 | Opening the administrator's own entry is refused with the self-edit message. Any other user opens with its form and clears the messages. |
| UserManagement.AdminUserManagement.HandleCancelEdit | client/src/components/AdminUserManagement.jsx:60-65 | Cancel closes the editor, resets the form to the defaults and clears the messages. |
| UserManagement.AdminUserManagement.HandleInputChange | client/src/components/AdminUserManagement.jsx:67-73 | An input change updates that field of the form only. |
| UserManagement.AdminUserManagement.HandleSaveUser | client/src/components/AdminUserManagement.jsx:75-104 | With nobody being edited, reading the uid fails. Otherwise the uid and form are sent. Success merges the form into the results, names the user in the success message and closes the editor. Failure keeps the editor open and shows "Failed to update user: " and the message. |
| UserManagement.AdminUserManagement.EditDisabled | client/src/components/AdminUserManagement.jsx:225-227 | The Edit button is disabled exactly on the administrator's own entry. |
| UserManagement.EditButtonGuardsTheEditor | client/src/components/AdminUserManagement.jsx:44-58 | The entry whose Edit button (lines 225-227) is disabled is exactly the one whose click is refused with the self-edit message. Every enabled button opens the editor with no message. |
| UserManagement.EditRoleAndSave | client/src/components/AdminUserManagement.jsx:22-104 | Searching, opening another user, changing the role and saving gives that entry the new role with its uid and email kept. No entry with another uid changes. |
| ProfilePage.FormOf | client/src/pages/ProfilePage.jsx:40-44 | The form takes the stored name and phone. It takes the role, or Parent when the role is empty. |
| ProfilePage.SavePayload | client/src/pages/ProfilePage.jsx:70-73 | The page saves the display name and phone and never a role. |
| ProfilePage.SaveKeepsStoredRole | client/src/pages/ProfilePage.jsx:70-73 | Saving the profile form can never change the stored role. An accepted save stores the form's name and phone. |
| ProfilePage.SaveAccepted | client/src/pages/ProfilePage.jsx:70-73 | On a healthy store the save of an existing profile is accepted with 200. |
| ProfilePage.ProfilePageState.LoadProfile | client/src/pages/ProfilePage.jsx:34-51 | A loaded user fills the form and clears the error. A body without a user fails on its display name. A failure keeps the form and shows "Failed to load profile. " and the message. Loading ends either way. |
| ProfilePage.ProfilePageState.AuthEffect | client/src/pages/ProfilePage.jsx:25-32 | A signed-out visitor goes to login once the session check is over. Otherwise the profile is loaded, even while the check is running. |
| ProfilePage.ProfilePageState.HandleInputChange | client/src/pages/ProfilePage.jsx:53-59 | An input change sets the name or the phone only. |
| ProfilePage.ProfilePageState.HandleSubmit | client/src/pages/ProfilePage.jsx:61-86 | The payload is the form without a role. Success shows the saved message and refreshes the session's profile. A refresh that fails keeps the session's profile and records its message as the session error. A failed save shows "Failed to update profile. " and the message and leaves the session untouched. |
| ProfilePage.ProfilePageState.HandleLogout | client/src/pages/ProfilePage.jsx:88-96 | Success goes to login and clears the profile and the session error. Failure shows "Failed to log out" and records its message as the session error. The signed-in user and the loading flag are not touched. |
| ProfilePage.EarlyLoadIsRefused | client/src/pages/ProfilePage.jsx:25-32 | A load sent while nobody is signed in yet is refused, and the page shows the service's "No valid authorization token provided". |
| ProfilePage.LoadShowsStoredProfile | client/src/pages/ProfilePage.jsx:34-51 | Loading a signed-in user's existing row fills the form with that row's name and phone. |
| SignupPage.SignupCheck | client/src/pages/SignupPage.jsx:22-28 | Different passwords give "Passwords do not match" first. A password under 6 UTF-16 units gives the length message. The checks pass exactly for equal passwords of at least 6 units. |
| SignupPage.SignupCheckBoundary | client/src/pages/SignupPage.jsx:26-28 | Six plain characters pass the length check and five do not. |
| SignupPage.SignupErrorMessage | client/src/pages/SignupPage.jsx:39-49 | Each of the three known provider codes gets its own message. Any other failure gets "Failed to create an account. " and the message, or "Please try again.". |
| SignupPage.EmailInUseShowsLoginLink | client/src/pages/SignupPage.jsx:85 | An email already in use offers the "Go to Login" link. |
| SignupPage.MarkerNeedsY | client/src/pages/SignupPage.jsx:85 | Proof helper for SignupPage.OtherCodesShowNoLoginLink: a message offering the login link contains the letter "y" of "already". |
| SignupPage.OtherCodesShowNoLoginLink | client/src/pages/SignupPage.jsx:39-85 | The invalid-email and weak-password messages do not offer the login link. |
| SignupPage.SignupPageState.HandleEmailSignup | client/src/pages/SignupPage.jsx:19-53 | Nothing is sent unless the checks pass, and a failed check shows its message. A successful sign-up goes to the profile page. A failed one shows the message for its code. Once sent, the session error is the failure's message or is cleared. |
| SignupPage.SignupPageState.HandleGoogleSignup | client/src/pages/SignupPage.jsx:55-67 | A successful popup goes to the profile page. A failed one shows "Failed to sign up with Google." and records its message as the session error; a successful one clears it. The page's loading flag ends off and the session's loading flag is not touched. |
| SubmitTicket.Unfilled | client/src/components/SubmitTicket.jsx:17 | The form is unfilled exactly when one field is nothing but white space. |
| SubmitTicket.SubmitTicketForm.HandleSubmit | client/src/components/SubmitTicket.jsx:14-41 | A form with a field of nothing but white space (the `trim()` test, by SubmitTicket.Unfilled) sends nothing and shows "Please fill in both fields". Otherwise the ticket goes out as typed. Success empties both fields and shows the submitted message. Failure keeps them and shows "Failed to submit ticket: " and the message. |
| SubmitTicket.SubmitTwice | client/src/components/SubmitTicket.jsx:14-41 | After a successful submission the emptied form refuses to send again. After a failed one the same ticket goes out again. |
| ErrorNotification.ErrorCode | client/src/components/ErrorNotification.jsx:12 | The code is "ERR-" followed by the upper-cased base-36 numeral of the clock. |
| ErrorNotification.ErrorCodeInjective | client/src/components/ErrorNotification.jsx:12 | Codes taken at different milliseconds differ. |
| ErrorNotification.ErrorCodeAlphabet | client/src/components/ErrorNotification.jsx:12 | After "ERR-" a code holds only digits and upper-case letters. |
| ErrorNotification.ErrorDetails | client/src/components/ErrorNotification.jsx:13 | The copied details start with "Error Code: " and the code. They contain the title, the message (with their defaults) and the time. |
| ErrorNotification.Report | client/src/components/ErrorNotification.jsx:28-31 | The report's issue is the title or "Unknown Error". Its description starts with the message or "No description available" and contains the code and the ISO time. |
| ErrorNotification.Render | client/src/components/ErrorNotification.jsx:10-76 | The card renders exactly when there is an error. It shows the title and message with their defaults, the code of the current clock and the details for that code. |
| ErrorNotification.CardCodeTravels | client/src/components/ErrorNotification.jsx:12-31 | The code on the card is the one the copied details start with and the one the report carries. |
| ErrorNotification.ErrorNotification.SendDisabled | client/src/components/ErrorNotification.jsx:116 | Send to IT is disabled exactly while sending or once sent. |
| ErrorNotification.ErrorNotification.SendLabel | client/src/components/ErrorNotification.jsx:118-134 | The button reads "Sending..." while sending, then "Sent to IT" once sent, else "Send to IT". |
| ErrorNotification.ErrorNotification.CopyLabel | client/src/components/ErrorNotification.jsx:95-109 | The copy button reads "Copied!" exactly while the copied flag is set. |
| ErrorNotification.ErrorNotification.ShowsSentBanner | client/src/components/ErrorNotification.jsx:80-86 | The sent banner shows exactly once the report has been sent. |
| ErrorNotification.ErrorNotification.HandleCopy | client/src/components/ErrorNotification.jsx:15-23 | A successful clipboard write sets the copied flag. A failure changes nothing. |
| ErrorNotification.ErrorNotification.CopiedTimerFired | client/src/components/ErrorNotification.jsx:19 | The two-second timer clears the copied flag only. |
| ErrorNotification.SendThenCaptions | client/src/components/ErrorNotification.jsx:25-134 | After a successful send the button reads "Sent to IT", is disabled and the banner shows. After a failed one it reads "Send to IT" again, is enabled and no banner shows. |
| ErrorNotification.CopyThenTimer | client/src/components/ErrorNotification.jsx:15-109 | Right after a copy the button reads "Copied!" exactly when the clipboard write succeeded. Once the timer fires it reads "Copy Error" again. |
| ErrorNotification.ErrorNotification.HandleSendToIT | client/src/components/ErrorNotification.jsx:25-42 | The report sent is the one for the shown error and code, and sending is on while the call runs. Success marks it sent and schedules the close. Failure raises the alert. Sending ends either way. |
| ErrorContext.UseError | client/src/contexts/ErrorContext.jsx:6-12 | The hook returns the context inside the provider. Outside it, it throws "useError must be used within ErrorProvider". |
| ErrorContext.ErrorProvider.ShowErrorAsWritten | client/src/contexts/ErrorContext.jsx:17-19 | `showError` sets the current error and keeps the same mounted card with its flags. |
| ErrorContext.ErrorProvider.ShowError | client/src/contexts/ErrorContext.jsx:17-19 | The corrected `showError` sets the current error and gives it a card with fresh flags. |
| ErrorContext.ErrorProvider.ClearError | client/src/contexts/ErrorContext.jsx:21-23 | `clearError` removes the current error. |
| ErrorContext.ErrorProvider.Shown | client/src/contexts/ErrorContext.jsx:33 | The provider's card shows exactly when there is a current error, and shows that error. |
| ErrorContext.ShowThenClear | client/src/contexts/ErrorContext.jsx:17-33 | After `showError` the card shows the error with the default title "Error Occurred", the default message "An unexpected error occurred." and the code of the clock. After `clearError` no card shows. |
| ErrorContext.SentFlagOutlivesItsErrorAsWritten | client/src/contexts/ErrorContext.jsx:17-33 | As written, after one error is sent to IT and closed, the next error already shows the sent banner and cannot be sent. |
| ErrorContext.NextErrorCanBeSent | client/src/contexts/ErrorContext.jsx:17-33 | With a fresh card per error, the next error after a report shows no banner and can be sent. |

## Left out

- Network, HTTP framing, CORS, JSON parsing and the server's start-up and logging are not modelled. Each route is a function from the request's relevant parts to a response.
- The identity provider and the hosted table are not modelled. Token verification is a function parameter, a throwing store call is a `StoreFault` parameter, and the store's record id and modification time are parameters.
- The `filterByFormula` lookup is modelled as an exact lookup by uid. A uid containing a quote could change the formula's meaning, and that is not modelled.
- UserService.PutProfile: the body's fields are modelled as strings or missing. A JSON value of another type (a number, null) is not modelled.
- Only the bootstrap and profile routes of the server are modelled. The health route and the catch-all error handler are not part of this model.
- `getIssues`, `resolveIssue`, `reportIssue`, `searchUsers` and `updateUserAsAdmin` are imported from the API module, which does not define them. Their outcomes are parameters, and what they send is not modelled beyond the arguments.
- The `syncing` value the portal pages read from the session context is not among the values the context provides. The model leaves it out, so the pages' sync indicators are not modelled.
- Timers are events the caller fires: the success and copied timers and the notification's close timer. Their delays and any interleaving of a timer with later actions are not modelled. For instance, the two-second close after a report can clear a newer error.
- React scheduling, re-renders and stale closures are not modelled. Each handler runs to completion against the current state. Two resolves in flight at once, each restoring its own snapshot of `resolving`, are not modelled.
- The poll interval's period and the number of ticks are not modelled. A poll is one tick at a time.
- Text.AsciiUpper: upper-casing covers ASCII letters only. The default display name and the error code use JavaScript's full Unicode `toUpperCase`, which can also change the length. The error code is base-36 and so is pure ASCII.
- Presentational components (cards, buttons, inputs, spinners, background, layout), styling and `console` logging are not modelled. Navigation is modelled as the route a page asks for.
- Login page, route table and firebase configuration are not part of this model.
- ErrorNotification.ErrorDetails and ErrorNotification.Report: the result is stated through its prefix, the parts it contains and its defaults, not as the exact template text.

## Findings

| source | as written | input that shows it | evidently intended | confidence | as-written member | corrected member |
|---|---|---|---|---|---|---|
| client/src/contexts/ErrorContext.jsx:33 | The provider always renders the same notification card. Its `sent` flag is never reset when one error is cleared and another shown. | `showError(A)`, Send to IT succeeds, `clearError()`, then `showError(B)`: B shows "Report sent to IT department successfully!" and its Send to IT button is disabled. | Each new error starts with sending, sent and copied all false, so it can be reported. | not executed | ErrorContext.SentFlagOutlivesItsErrorAsWritten | ErrorContext.NextErrorCanBeSent |
