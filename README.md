# Cotecmar outfitting front end — a Dafny model

This project models the logic of the Cotecmar outfitting web application. That application is a React front end over Firebase, used by naval-construction staff:
- *líderes* (leaders) follow projects on a dashboard;
- *modelistas* (modellers) record progress in millimetres, rework events and productivity time.

The model covers these parts of the application:

- **The user-profile service** (`UserService`):
  - the browser cache of profiles under `user_<uid>`;
  - the `getUser` decision tree;
  - `updateUserRole`'s role check;
  - `createNewUser`, with its default role, its read-back check and its offline `pendingSync` fallback;
  - the `syncPendingUsers` sweep.

  The cache and the remote `users` collection are maps. Every remote call consumes one entry of a fault script, so each call succeeds, reads no document (`Stale`) or fails.
- **The two registration flows** (`RegisterModal`, `RegisterForm`) over an account service (`Identity`), and **the session reconciliation** of the auth context (`AuthContext`). Each has:
  - a specification function;
  - a class whose methods update the component's state and are proved equal to that function.
- **The in-memory progress records and rework events** (`PlantillaAvance`).
- **The aggregations** of the productivity page (`Productividad`), the modeller's dashboard (`DashboardModelista`) and the leader's dashboard (`LiderDashboard`).
  - Their loops are methods proved equal to recursive definitions.
  - Conservation, membership and ordering are proved about those definitions.
- **The pure decisions and filters:**
  - the route guard (`ProtectedRoute`);
  - the side menu (`MainLayout`);
  - the hard-coded login (`Login`);
  - the metric dictionary search (`Diccionario`);
  - the user administration page (`AdminUsuarios`);
  - the CGT calculator (`CalculadoraCgt`).

Three modules support the rest:
- `Js` gives JavaScript's values as the code uses them: objects as maps, truthiness, `||`, `Number()` on integer texts, `trim`, `toLowerCase`, `startsWith`, `includes`, `split` on a separator, `length` in UTF-16 code units, and the default sort's code-unit ordering.
- `Aggregate` gives sums over maps.
- `Registration` holds the form and messages shared by the two registration components.

Two defects in the code are modelled as the code behaves:
- In `getUser` (src/lib/userService.js:51, 92-96), `localData` is declared inside the `try` and read in the `catch`, so every error inside the `try` surfaces as a `ReferenceError`. `UserService.GetUserThrowsReferenceError` states it.
- The auth context calls `updateUserRole` (src/lib/AuthContext.jsx:50) without importing it (src/lib/AuthContext.jsx:3), so promoting a `pendiente` profile always throws and the error is swallowed. `AuthContext.PendienteStaysPendiente` states it.

The clock, `Date.now()`, `crypto.randomUUID()` and the browser's connectivity flag become parameters:
- `now`, `today`, `id` and `uuid` are parameters;
- connectivity is `Store.online`.

## Model

| member | source | states |
|---|---|---|
| UserService.LocalKey | src/lib/userService.js:30 | the cache key is "user_" followed by the uid, which it determines uniquely |
| UserService.LocalKeyInjective | src/lib/userService.js:30-41 | two uids never share a cache key |
| UserService.Jsonify | src/lib/userService.js:41 | a JSON round trip of a flat object drops exactly its undefined fields and keeps every other value |
| UserService.JsonifyIdentity | src/lib/userService.js:31-41 | an object with no undefined field survives the JSON round trip unchanged |
| UserService.WriteLocal | src/lib/userService.js:39-45 | writing the cache never touches the documents, the connectivity or the remote outcomes |
| UserService.LocalRoundTrip | src/lib/userService.js:28-45 | after saveLocalUser, getLocalUser returns the saved object as JSON would store it; when storage refuses the write, nothing changes |
| UserService.WriteLocalOtherKeys | src/lib/userService.js:39-45 | saving one profile leaves every other cache entry as it was |
| UserService.Service.GetLocalUser | src/lib/userService.js:28-36 | reads the entry; empty text and text that is not JSON give null |
| UserService.Service.constructor | src/lib/userService.js:28-45 | the service starts in the given browser cache, documents and remote outcomes |
| UserService.Service.TakeFault | src/lib/userService.js:70 | each remote call consumes the next scripted outcome |
| UserService.Service.SaveLocalUser | src/lib/userService.js:39-45 | the cache afterwards is the one with the profile written; a storage error is swallowed |
| UserService.GetUserSpec | src/lib/userService.js:48-114 | getUser as a state change: offline, the cached profile marked offline or the temporary profile; online, an invalid uid or a failed read throws the ReferenceError, a present document is returned and cached, a missing one gives the cache marked offline or null |
| UserService.GetUserOffline | src/lib/userService.js:54-66 | offline, the cached profile is returned with offline set, or else the temporary {id, rol: modelista, offline, temporary} profile; nothing is written |
| UserService.GetUserExisting | src/lib/userService.js:68-82 | online with the document present, its fields are returned with offline false and the result is cached |
| UserService.GetUserMissing | src/lib/userService.js:84-90 | online with no document, the cache marked offline is returned, or null |
| UserService.GetUserThrowsReferenceError | src/lib/userService.js:51-113 | getUser throws exactly when it is online and the uid is invalid or the read fails, always with the ReferenceError, and never changes a document |
| UserService.Service.GetUser | src/lib/userService.js:48-114 | the method's state and result equal the getUser specification |
| UserService.IsRoleIsRoleValue | src/lib/userService.js:16-20 | a value is a role exactly when it is one of the three ROLES strings |
| UserService.UpdateUserRoleSpec | src/lib/userService.js:139-149 | updateUserRole: an invalid role throws first, then an invalid uid, a failed write or a missing document throws; otherwise that user's rol and updatedAt are set |
| UserService.UpdateUserRoleContract | src/lib/userService.js:139-149 | an invalid role throws "Rol inválido" before any write; success sets that user's rol and changes no other document and no cache entry; a failure changes no document |
| UserService.Service.UpdateUserRole | src/lib/userService.js:139-149 | the method equals the updateUserRole specification |
| UserService.NewUserData | src/lib/userService.js:154-159 | the written profile keeps every given field and adds rol, createdAt and updatedAt |
| UserService.CreateNewUserSpec | src/lib/userService.js:152-192 | createNewUser: write the new profile, read it back, return it with its id and cache it; a failed write or read, or a document not found after the write, goes to the catch, which offline caches and returns a pending profile and online rethrows |
| UserService.CreateNewUserRole | src/lib/userService.js:156 | every returned profile carries the given role, or "modelista" when the given role is falsy |
| UserService.CreateNewUserOnline | src/lib/userService.js:161-190 | online, success means the document was written and read back, the result is that document with its id, and it is cached; a read that finds no document throws "No se pudo guardar…"; a throw leaves the cache alone |
| UserService.CreateNewUserId | src/lib/userService.js:168-187 | a returned profile's id is the uid, when the given data carries no id of its own (as in every caller) |
| UserService.CreateNewUserOfflineFallback | src/lib/userService.js:176-187 | offline, a failed write caches the profile with pendingSync and offline set and returns it; no document changes |
| UserService.CreateNewUserOfflineNeverThrows | src/lib/userService.js:176-187 | offline, createNewUser never throws for a valid uid |
| UserService.Service.CreateNewUser | src/lib/userService.js:152-192 | the method equals the createNewUser specification |
| UserService.Payload | src/lib/userService.js:210-213 | the pushed payload is the cached entry without pendingSync, offline and id |
| UserService.UserKeys | src/lib/userService.js:196 | the keys swept are exactly the storage keys starting with "user_", in order |
| UserService.SyncKey | src/lib/userService.js:200-224 | one iteration of the sync loop: an absent, empty or not-pending entry is skipped; unparsable text, a missing or invalid uid and a failed push record an error; a successful push merges the entry into the document and caches it as synced |
| UserService.SyncKeyOutcome | src/lib/userService.js:199-224 | an entry is attempted exactly when it is non-empty and pending; a failed push changes nothing and records an error for its key; a successful push merges the payload and caches the entry marked synced |
| UserService.SyncKeyFrame | src/lib/userService.js:199-224 | one iteration changes no cache entry outside the "user_" keys |
| UserService.MergePushNoLocalFields | src/lib/userService.js:210-215 | a merged push never gives a document a local-only field it lacked |
| UserService.SyncKeyNoLocalFields | src/lib/userService.js:199-224 | one iteration never gives a document a local-only field it lacked |
| UserService.SyncAll | src/lib/userService.js:195-228 | the sync loop over the given keys, in order, with the result of each iteration that produced one |
| UserService.SyncAllResults | src/lib/userService.js:197-227 | the sweep records at most one result per key |
| UserService.SyncAllOtherKeys | src/lib/userService.js:196-228 | the sweep changes no cache entry outside the "user_" keys |
| UserService.SyncAllNoLocalFields | src/lib/userService.js:196-228 | over the whole sweep, no document gains pendingSync, offline or id |
| UserService.Service.SyncOne | src/lib/userService.js:200-224 | the method equals one iteration of the sweep |
| UserService.Service.SyncPendingUsers | src/lib/userService.js:195-228 | the method's state and results equal the sweep over the "user_" keys |
| UserService.OfflineProfileIsSynced | src/lib/userService.js:176-220 | a profile cached by the offline fallback is attempted by the next sweep, and a successful push gives the document the profile's role |
| UserService.PendingEntryFields | src/lib/userService.js:179-186 | the cached offline entry is pending, names its uid and carries the role |
| UserService.PendingEntrySynced | src/lib/userService.js:199-220 | a pending entry naming its own valid uid is pushed under that uid unless the call fails |
| Identity.CreateUserSpec | src/components/RegisterModal.jsx:68-72 | account creation: the next scripted refusal throws; otherwise a fresh uid is returned and its account holds the email |
| Identity.CreateUserContract | src/components/RegisterModal.jsx:68-72 | a created account holds its email, other accounts are kept, and a refusal creates nothing |
| Identity.CreateThenDelete | src/components/RegisterModal.jsx:85-86 | deleting a freshly created account restores the accounts |
| Identity.Auth.CreateUser | src/components/RegisterForm.jsx:52-56 | the method equals the account-creation specification |
| Identity.DeleteUserSpec | src/components/RegisterModal.jsx:85-86 | account deletion: the next scripted refusal throws and keeps the account; otherwise the account is removed |
| Identity.Auth.DeleteUser | src/components/RegisterModal.jsx:85-86 | the method equals the account-deletion specification |
| Identity.Auth.constructor | src/components/RegisterModal.jsx:2-3 | the account service starts in the given state |
| RegisterModal.Checks | src/components/RegisterModal.jsx:42-65 | the four checks in their order: a missing field, an email that does not look like one, unequal passwords, a password under 6 UTF-16 units; none when all pass |
| RegisterModal.Validate | src/components/RegisterModal.jsx:36-65 | the checks applied with email and name trimmed and the passwords as typed |
| RegisterModal.ValidateOrder | src/components/RegisterModal.jsx:42-65 | the form passes exactly when every field is present, the email matches \S+@\S+\.\S+, the passwords agree and are at least 6 UTF-16 code units long; each message implies that the earlier checks passed |
| RegisterModal.TrimmedBeforeValidation | src/components/RegisterModal.jsx:36-40 | email and name are trimmed before they are checked |
| RegisterModal.PasswordNotTrimmed | src/components/RegisterModal.jsx:38-65 | the password is not trimmed: white space counts towards its length |
| RegisterModal.AstralPasswordLongEnough | src/components/RegisterModal.jsx:61 | a password of three characters outside the Basic Multilingual Plane is six code units long and passes |
| RegisterModal.ValidationFailureStops | src/components/RegisterModal.jsx:42-65 | a failed check shows its message and touches no service |
| RegisterModal.Conclude | src/components/RegisterModal.jsx:75-109 | the end of a submission once the account exists: a profile error, a pending profile, a profile with an id, or one without |
| RegisterModal.ConcludeCases | src/components/RegisterModal.jsx:75-109 | a write failure shows its message and deletes the account only when online; a pending profile always deletes the account and shows the pending message; the dialog closes exactly when the saved profile has an id and is not pending |
| RegisterModal.AccountFailure | src/components/RegisterModal.jsx:68-112 | a failed account creation shows its message and writes no profile |
| RegisterModal.CompensationFailureIgnored | src/components/RegisterModal.jsx:85-101 | how the deletion ends does not change the message, the closing or the profile store |
| RegisterModal.UnverifiedUnreachable | src/components/RegisterModal.jsx:104-109 | since every saved profile carries the uid, the "no se pudo verificar" ending cannot occur |
| RegisterModal.ClosedIffSaved | src/components/RegisterModal.jsx:97-109 | when the saved profile carries the uid, the dialog closes exactly when the profile was saved and is not pending |
| RegisterModal.Modal.constructor | src/components/RegisterModal.jsx:11-19 | the dialog starts with the empty form with role modelista, no error, no spinner, open |
| RegisterModal.SubmitSpec | src/components/RegisterModal.jsx:30-116 | a failed check only shows its message; otherwise the account is created and the profile written and concluded |
| RegisterModal.Modal.HandleSubmit | src/components/RegisterModal.jsx:30-116 | the dialog's final services, error and closing equal the submission specification, and loading ends false |
| RegisterModal.Modal.CheckFields | src/components/RegisterModal.jsx:42-65 | the early returns give the first failing check's message |
| RegisterModal.Modal.RegisterAccount | src/components/RegisterModal.jsx:67-94 | the `try` equals account creation followed by the profile write |
| RegisterModal.Modal.Finish | src/components/RegisterModal.jsx:75-109 | the four endings as specified by Conclude |
| RegisterForm.ChecksOrder | src/components/RegisterForm.jsx:38-48 | the mismatch check precedes the length check (at least 6 UTF-16 code units), and either failure stops before account creation |
| RegisterForm.AstralPasswordLongEnough | src/components/RegisterForm.jsx:44 | a password of three characters outside the Basic Multilingual Plane passes the length check |
| RegisterForm.Checks | src/components/RegisterForm.jsx:38-48 | the mismatch check, then the 6-unit length check, on the fields as typed; none when both pass |
| RegisterForm.SubmitSpec | src/components/RegisterForm.jsx:32-73 | a failed check only shows its message; otherwise the account is created, the profile written, and the form navigates when both return |
| RegisterForm.NavigatesIff | src/components/RegisterForm.jsx:50-66 | it navigates to /login exactly when the checks pass and both awaited steps return |
| RegisterForm.ErrorShowsMessage | src/components/RegisterForm.jsx:67-69 | a thrown error shows its message and does not navigate |
| RegisterForm.NoRollback | src/components/RegisterForm.jsx:52-69 | after a failed profile write the created account remains |
| RegisterForm.OfflineNavigatesWithPendingProfile | src/components/RegisterForm.jsx:59-66 | offline, a failed write still navigates, with only a pending profile cached |
| RegisterForm.Page.HandleSubmit | src/components/RegisterForm.jsx:32-73 | the form's final services, error and navigation equal the specification, and loading ends false |
| RegisterForm.Page.constructor | src/components/RegisterForm.jsx:14-21 | the form starts empty with role modelista, no error, no spinner, not navigated |
| AuthContext.SignedOut | src/lib/AuthContext.jsx:64-65 | without an account the user is null and no service is called |
| AuthContext.Fetch | src/lib/AuthContext.jsx:21-31 | the first try: the getUser result, or the basic pendiente profile marked offline when getUser throws |
| AuthContext.FetchFailureGivesBasicProfile | src/lib/AuthContext.jsx:23-31 | when getUser throws, the profile is {rol: pendiente, offline: true}, which then counts as missing |
| AuthContext.MissingProfileIsCreated | src/lib/AuthContext.jsx:34-46 | a missing or offline profile calls createNewUser with role modelista and the display name or email, then refetches; a throw from either call keeps the previous profile, otherwise the refetched profile is published |
| AuthContext.PendienteStaysPendiente | src/lib/AuthContext.jsx:47-55 | a pendiente profile stays pendiente and no document changes |
| AuthContext.AppUserDefaults | src/lib/AuthContext.jsx:57-63 | the name is nombre, else displayName, else email; rol defaults to pendiente and offline to false |
| AuthContext.OfflineFirstSession | src/lib/AuthContext.jsx:18-63 | a first offline session with a failing write publishes a modelista marked offline |
| AuthContext.FetchOffline | src/lib/AuthContext.jsx:23-26 | offline with nothing cached, the fetched profile is the temporary one, which counts as missing |
| AuthContext.Recreate | src/lib/AuthContext.jsx:33-45 | the second try: createNewUser then getUser; a throw from either keeps the profile it had |
| AuthContext.Reconcile | src/lib/AuthContext.jsx:21-55 | fetch the profile and recreate it when it is missing or offline; a pendiente profile is kept as it is |
| AuthContext.ToAppUser | src/lib/AuthContext.jsx:57-63 | the published user: uid and email, the profile's nombre or the display name or the email, the profile's rol or pendiente, the profile's offline or false |
| AuthContext.RecreatePending | src/lib/AuthContext.jsx:34-46 | offline with a failing write, the recreated profile is the pending cache entry marked offline |
| AuthContext.ModelistaOffline | src/lib/AuthContext.jsx:57-63 | a profile with role modelista marked offline is published as a modelista marked offline |
| AuthContext.RoleFlagsExclusive | src/lib/AuthContext.jsx:86-93 | isLider and isModelista are never both true, and either one implies isAuthenticated |
| AuthContext.OnAuthChange | src/lib/AuthContext.jsx:17-66 | no Firebase user publishes none; a signed-in user is reconciled and published |
| AuthContext.OuterError | src/lib/AuthContext.jsx:67-76 | the outer catch: a connectivity code keeps the user with the connection message, any other code clears it |
| AuthContext.OuterErrorContract | src/lib/AuthContext.jsx:67-76 | failed-precondition and unavailable keep the user with the connection message; any other code clears it |
| AuthContext.IsAuthenticated | src/lib/AuthContext.jsx:90 | isAuthenticated holds exactly when a user is published |
| AuthContext.IsLider | src/lib/AuthContext.jsx:91 | isLider holds exactly when the published user's rol is the string lider |
| AuthContext.IsModelista | src/lib/AuthContext.jsx:92 | isModelista holds exactly when the published user's rol is the string modelista |
| AuthContext.Provider.OnAuthStateChanged | src/lib/AuthContext.jsx:18-80 | the callback's services and published user equal the reconciliation specification, and loading ends false |
| AuthContext.Provider.OnOuterError | src/lib/AuthContext.jsx:67-79 | the outer catch and finally |
| AuthContext.Provider.constructor | src/lib/AuthContext.jsx:7-10 | the provider starts with no user, loading, and no error |
| ProtectedRoute.Guard | src/components/ProtectedRoute.jsx:4-23 | the route's decision: the placeholder while loading, the login redirect without a user, the refusal for a truthy required role the user lacks, else the children |
| ProtectedRoute.GuardDecisions | src/components/ProtectedRoute.jsx:4-23 | loading shows the placeholder; otherwise no user redirects to /login with the location; a required role the user lacks refuses; else the children render; each in both directions |
| ProtectedRoute.ChildrenNeedRole | src/components/ProtectedRoute.jsx:12-22 | the children render only for a signed-in user with the required role |
| MainLayout.FindByPath | src/pages/layout/MainLayout.jsx:29 | the first menu entry with exactly that path, or none when no entry has it |
| MainLayout.ComputedActive | src/pages/layout/MainLayout.jsx:24-32 | the highlighted entry: a non-empty activeKey, else dashboard for a dashboard path, else the entry with the current path, else none |
| MainLayout.ComputedActiveCases | src/pages/layout/MainLayout.jsx:24-32 | a given activeKey is used; a /dashboard- path gives "dashboard"; else the key of the entry with that path, or null |
| MainLayout.MenuPathsDistinct | src/pages/layout/MainLayout.jsx:8-16 | no two menu entries share a path |
| MainLayout.NoMenuPathIsDashboard | src/pages/layout/MainLayout.jsx:8-27 | no menu path is empty or starts with /dashboard-, so the path lookup decides their highlighting |
| MainLayout.Visible | src/pages/layout/MainLayout.jsx:51-56 | the menu keeps exactly the entries other than "productividad", plus "productividad" for a lider |
| MainLayout.MenuFilter | src/pages/layout/MainLayout.jsx:51-56 | "productividad" is hidden exactly for a user who is not a lider |
| MainLayout.NavigationByRole | src/pages/layout/MainLayout.jsx:62-71 | the dashboard entry leads by role (lider, modelista, else kpis), each other entry to its own path, and the page reached highlights the clicked entry |
| MainLayout.DashboardHighlighted | src/pages/layout/MainLayout.jsx:62-66 | whichever dashboard the entry leads to, it highlights the dashboard entry |
| MainLayout.EntryHighlighted | src/pages/layout/MainLayout.jsx:67-70 | every other entry leads to its own path, which highlights it |
| MainLayout.Navigate | src/pages/layout/MainLayout.jsx:62-70 | a click on the dashboard entry goes to the lider, modelista or KPI dashboard by role; any other entry goes to its own path |
| MainLayout.Logout | src/pages/layout/MainLayout.jsx:88-99 | the logout button calls onLogout when given, and goes to / only when signOut succeeds |
| MainLayout.LogoutCallsBack | src/pages/layout/MainLayout.jsx:88-99 | onLogout is called whether signOut succeeds or fails; only success goes to "/" |
| Login.Credentials | src/pages/Login.jsx:25-33 | the two hard-coded credential pairs open the lider and modelista accounts and their pages; any other pair opens none |
| Login.SubmitSpec | src/pages/Login.jsx:19-38 | a known pair stores its user as JSON and navigates; any other pair only alerts |
| Login.Redirect | src/pages/Login.jsx:11-17 | the mount effect: no entry goes nowhere, a stored lider or modelista is redirected, text that is not JSON throws |
| Login.SubmitCases | src/pages/Login.jsx:19-38 | the lider and modelista credentials store their user and navigate; any other pair only alerts |
| Login.RedirectCases | src/pages/Login.jsx:11-17 | a stored lider goes to /dashboard-lider, a modelista to /dashboard-kpis, anyone else nowhere; text that is not JSON throws |
| Login.RememberedLogin | src/pages/Login.jsx:11-37 | after a successful login, the mount effect leads where the login did |
| Login.LoginPage.OnMount | src/pages/Login.jsx:11-17 | the method performs the redirect the mount effect specifies |
| Login.LoginPage.HandleSubmit | src/pages/Login.jsx:19-38 | the method's storage, navigation and alert equal the submission specification |
| Login.LoginPage.constructor | src/pages/Login.jsx:6-8 | the page starts with empty fields, the stored user as given and no navigation or alert |
| Diccionario.Matches | src/pages/DiccionarioMetricasPage.jsx:80-84 | an entry matches when its lowercased term or definition contains the lowercased search text and its category is the chosen one, or Todas is chosen |
| Diccionario.Filter | src/pages/DiccionarioMetricasPage.jsx:79-85 | the result is an order-preserving subsequence holding exactly the matching entries |
| Diccionario.Filtered | src/pages/DiccionarioMetricasPage.jsx:79-85 | the shown entries: the filter over the eight dictionary entries |
| Diccionario.FilteredContract | src/pages/DiccionarioMetricasPage.jsx:79-85 | every result is in the chosen category (any for "Todas") and contains the lowercased term in its term or definition; every matching entry is in the result |
| Diccionario.EmptySearchShowsAll | src/pages/DiccionarioMetricasPage.jsx:5-85 | an empty search in "Todas" shows all 8 entries |
| Diccionario.AllMatchKeepsAll | src/pages/DiccionarioMetricasPage.jsx:79-85 | when every entry matches, the filter keeps the list as it is |
| Diccionario.CategoriesCoverEntries | src/pages/DiccionarioMetricasPage.jsx:5-73 | every entry's category is one of the buttons, and none is "Todas" |
| Diccionario.EmptyStateIff | src/pages/DiccionarioMetricasPage.jsx:149 | the empty-state message shows exactly when no entry matches |
| AdminUsuarios.WithRole | src/pages/AdminUsuariosPage.jsx:45-47 | the list keeps its length; rows with that id get the new rol, the others are unchanged |
| AdminUsuarios.RoleChangeTouchesOneRow | src/pages/AdminUsuariosPage.jsx:41-51 | a successful change rewrites only the rol of the matching rows, to the role now stored; a failed one leaves the list and the documents unchanged |
| AdminUsuarios.InvalidRoleChangesNothing | src/pages/AdminUsuariosPage.jsx:41-51 | an invalid role changes neither the list nor the store |
| AdminUsuarios.OwnRowHasNoSelector | src/pages/AdminUsuariosPage.jsx:79 | the signed-in user's row shows no selector |
| AdminUsuarios.SelectorNeverTargetsSelf | src/pages/AdminUsuariosPage.jsx:79-82 | a change issued from a row's selector never targets the signed-in user, whose document and rows stay as they were |
| AdminUsuarios.Label | src/pages/AdminUsuariosPage.jsx:90 | the option label is the role key with the same length and first letter |
| AdminUsuarios.RoleOptions | src/pages/AdminUsuariosPage.jsx:88-92 | one option per ROLES key, in order, labelled from the key with the role's value |
| AdminUsuarios.RoleOptionLabels | src/pages/AdminUsuariosPage.jsx:88-92 | the options are Lider, Modelista and Pendiente with the ROLES values |
| AdminUsuarios.NameCell | src/pages/AdminUsuariosPage.jsx:75 | the name cell is always non-empty |
| AdminUsuarios.Page.LoadUsers | src/pages/AdminUsuariosPage.jsx:30-39 | the rows are replaced only when fetching returned; loading ends false either way |
| AdminUsuarios.Page.HandleRoleChange | src/pages/AdminUsuariosPage.jsx:41-51 | the method equals the role-change specification |
| AdminUsuarios.Page.constructor | src/pages/AdminUsuariosPage.jsx:22-24 | the page starts with no rows, loading, for the signed-in uid |
| CalculadoraCgt.ToNum | src/pages/CalculadoraCgtPage.jsx:32-33 | Number() of a number field's text: white space ignored, the empty text 0, an optional sign, a decimal, anything else NaN |
| CalculadoraCgt.ToNumExtendsParseNumber | src/pages/CalculadoraCgtPage.jsx:32-33 | the calculator's decimal reading agrees with the integer reading on integer texts |
| CalculadoraCgt.DecimalExample | src/pages/CalculadoraCgtPage.jsx:100 | a typed factor "0.60" reads as 0.6 |
| CalculadoraCgt.Lookup | src/pages/CalculadoraCgtPage.jsx:32 | the table value of a ship type exists exactly when a row has that key, and comes from such a row |
| CalculadoraCgt.DefaultFactorsPositive | src/pages/CalculadoraCgtPage.jsx:12-23 | the ten default factors are all positive |
| CalculadoraCgt.Factor | src/pages/CalculadoraCgtPage.jsx:32 | the custom factor when the option is on and the field is non-empty, else the factor of the selected ship type, else 0 |
| CalculadoraCgt.FactorSelection | src/pages/CalculadoraCgtPage.jsx:32 | the custom value is used exactly when the option is on and the field is non-empty; otherwise the row's factor, or 0 for an unknown ship type |
| CalculadoraCgt.FactorOfRow | src/pages/CalculadoraCgtPage.jsx:32 | without a custom value, the factor is the table factor of the selected row |
| CalculadoraCgt.Mul | src/pages/CalculadoraCgtPage.jsx:33 | the product is finite exactly when both factors are, and is then their product |
| CalculadoraCgt.ShipTypesDistinct | src/pages/CalculadoraCgtPage.jsx:12-23 | no two rows of the table share a ship type |
| CalculadoraCgt.Cgt | src/pages/CalculadoraCgtPage.jsx:33 | the displayed CGT: GT times the factor when GT is positive, else 0 |
| CalculadoraCgt.CgtGuard | src/pages/CalculadoraCgtPage.jsx:33 | the displayed CGT is 0 unless GT is positive, and GT × factor otherwise |
| CalculadoraCgt.Round2 | src/pages/CalculadoraCgtPage.jsx:41 | rounding to hundredths moves the value by at most 0.005 |
| CalculadoraCgt.Prepend | src/pages/CalculadoraCgtPage.jsx:44 | the new entry first, at most ten kept, the rest a prefix of the old history |
| CalculadoraCgt.Calculate | src/pages/CalculadoraCgtPage.jsx:35-45 | handleCalculate: the new entry is put in front of the history, cut to ten |
| CalculadoraCgt.CalculateContract | src/pages/CalculadoraCgtPage.jsx:35-45 | calculating changes only the history, which never exceeds ten entries |
| CalculadoraCgt.NewEntry | src/pages/CalculadoraCgtPage.jsx:36-43 | the history entry: id, GT, ship type, factor, the rounded product of GT and factor, date |
| CalculadoraCgt.CalculateEntry | src/pages/CalculadoraCgtPage.jsx:36-43 | the entry records the GT, ship type and factor in force, with the given id and date |
| CalculadoraCgt.EntryCgt | src/pages/CalculadoraCgtPage.jsx:41 | the recorded CGT is the rounded product of GT and the factor |
| CalculadoraCgt.EntryHasNoGuard | src/pages/CalculadoraCgtPage.jsx:41 | the entry's CGT is the rounded product with no positivity guard |
| CalculadoraCgt.NegativeGtRecorded | src/pages/CalculadoraCgtPage.jsx:33-41 | a negative GT is recorded with a negative CGT while the display shows 0 |
| CalculadoraCgt.Reset | src/pages/CalculadoraCgtPage.jsx:47-51 | GT reads 0 and the custom factor is cleared and off; the ship type and history stay |
| CalculadoraCgt.ZeroText | src/pages/CalculadoraCgtPage.jsx:48 | the GT text "0" reads as 0 |
| CalculadoraCgt.Clear | src/pages/CalculadoraCgtPage.jsx:63 | "Limpiar" empties the history and then resets |
| CalculadoraCgt.ResetShowsZero | src/pages/CalculadoraCgtPage.jsx:47-63 | after a reset or a clear the displayed CGT is 0 |
| PlantillaAvance.FindIndex | src/pages/PlantillaAvancePage.jsx:120-121 | the first record with that id, or none exactly when no record has it |
| PlantillaAvance.SubmitAvance | src/pages/PlantillaAvancePage.jsx:93-116 | exactly one record is appended, with the form's fields, numeric hours and mm, no rework events and today's date; the earlier records are kept; the form is reset to "En progreso" and closed |
| PlantillaAvance.WithReproceso | src/pages/PlantillaAvancePage.jsx:133-137 | the record with the event appended and the event's hours added to its hours |
| PlantillaAvance.WithReprocesoAppends | src/pages/PlantillaAvancePage.jsx:133-137 | the record gains exactly one event at the end and its hours grow by the event's hours; nothing else changes |
| PlantillaAvance.NewReproceso | src/pages/PlantillaAvancePage.jsx:123-129 | the event's numero is the record's event count plus 1, with the typed hours and reason |
| PlantillaAvance.SubmitReproceso | src/pages/PlantillaAvancePage.jsx:118-144 | an unknown id changes nothing; otherwise the length is kept, records with that id gain the event and the others are unchanged; the event form is reset and closed |
| PlantillaAvance.AddToMatching | src/pages/PlantillaAvancePage.jsx:131-139 | each record with the id gains the event; the others are unchanged |
| PlantillaAvance.WithReprocesoNumbered | src/pages/PlantillaAvancePage.jsx:125-135 | a record numbered 1..n stays numbered 1..n+1 |
| PlantillaAvance.SubmitReprocesoKeepsNumbering | src/pages/PlantillaAvancePage.jsx:118-144 | with unique ids, adding an event keeps every record numbered and the ids unique |
| PlantillaAvance.SubmitAvanceKeepsNumbering | src/pages/PlantillaAvancePage.jsx:93-104 | appending a record with a fresh id keeps every record numbered and the ids unique |
| PlantillaAvance.AppendKeepsNumbering | src/pages/PlantillaAvancePage.jsx:104 | appending a numbered record with a fresh id keeps the list numbered and the ids unique |
| PlantillaAvance.MockAvancesWellFormed | src/pages/PlantillaAvancePage.jsx:37-72 | the mock records have distinct ids and numbered events |
| PlantillaAvance.StatusVariant | src/pages/PlantillaAvancePage.jsx:159-170 | this page's badge: default, secondary and destructive for the three known states, secondary for any other |
| PlantillaAvance.StatusIconOf | src/pages/PlantillaAvancePage.jsx:146-157 | the icon: check, clock and alert for the three known states, none for any other |
| PlantillaAvance.StatusBadgeMatchesIcon | src/pages/PlantillaAvancePage.jsx:146-170 | badge and icon agree on the three known states; an unknown state has no icon and a secondary badge |
| Productividad.AddEvento | src/pages/ProductividadPage.jsx:38-52 | an incomplete form or a zero or NaN duration leaves the list unchanged; otherwise the event is prepended with the form's fields |
| Productividad.Reset | src/pages/ProductividadPage.jsx:54-59 | the list is emptied exactly when the user confirms |
| Productividad.PorOperarioDia | src/pages/ProductividadPage.jsx:62-78 | the loop builds exactly the per operator and day buckets |
| Productividad.DayBucketContents | src/pages/ProductividadPage.jsx:64-75 | a bucket exists exactly for the operator-and-date keys of the events; each counter is the sum of its type's minutes; ADM, CAP_NP and unknown types go to otros; total is the sum of all minutes |
| Productividad.DayBuckets | src/pages/ProductividadPage.jsx:62-78 | the map from operator and day to that day's minutes by kind, built by the loop in event order |
| Productividad.Accepts | src/pages/ProductividadPage.jsx:40 | addEvento's guard: date, operator, system and type filled and a duration that is neither 0 nor NaN |
| Productividad.DayBucketsConserve | src/pages/ProductividadPage.jsx:62-78 | the bucket totals add up to the sum of all event durations |
| Productividad.TotalsUpdate | src/pages/ProductividadPage.jsx:66-76 | replacing one bucket changes the sum of totals by the difference of the two totals |
| Productividad.Accumulate | src/pages/ProductividadPage.jsx:82-93 | the loop gives each operator the sums of their buckets and the number of their days |
| Productividad.AccMapContents | src/pages/ProductividadPage.jsx:81-93 | the accumulated map has exactly the operators as keys, each with the sums of their buckets |
| Productividad.EntriesOf | src/pages/ProductividadPage.jsx:95 | Object.entries gives one distinct row per operator, each computed from that operator's sums |
| Productividad.RearrangedRows | src/pages/ProductividadPage.jsx:106 | any rearrangement of those rows still has one row per operator with that operator's sums |
| Productividad.PorOperario | src/pages/ProductividadPage.jsx:81-107 | one row per operator, sorted by operator, each carrying that operator's sums |
| Productividad.OperatorOfDayKey | src/pages/ProductividadPage.jsx:65-84 | splitting the key at the separator recovers the operator when the name does not contain the separator |
| Productividad.DiasCountsDates | src/pages/ProductividadPage.jsx:65-86 | dias counts the operator's distinct dates when no name contains the separator |
| Productividad.JoinInjective | src/pages/ProductividadPage.jsx:65 | for one operator, different dates give different keys |
| Productividad.RowPercentagesZero | src/pages/ProductividadPage.jsx:101-104 | every percentage is 0 when td is not positive |
| Productividad.Matriz | src/pages/ProductividadPage.jsx:110-121 | the loop builds the block-and-system cells; the blocks are sorted, without duplicates, and exactly those of productive events |
| Productividad.SeenBlocks | src/pages/ProductividadPage.jsx:115-116 | the blocks of productive events in first-seen order, each once |
| Productividad.SeenBlocksContents | src/pages/ProductividadPage.jsx:115-116 | the blocks collected are distinct and exactly those of productive events, an empty block shown as "-" |
| Productividad.CellContents | src/pages/ProductividadPage.jsx:113-119 | a cell exists exactly for the block-and-system keys of productive events and holds their minutes |
| Productividad.Cells | src/pages/ProductividadPage.jsx:113-119 | the map from block and system to the productive minutes, built by the loop in event order |
| Productividad.CellsConserve | src/pages/ProductividadPage.jsx:113-119 | the cells add up to the productive minutes |
| Productividad.CellOfBlockAndSystem | src/pages/ProductividadPage.jsx:113-119 | when no block contains the separator, a cell is the productive minutes of that block and system |
| Productividad.RowOf | src/pages/ProductividadPage.jsx:95-104 | an operator's summary row: days, productive and total minutes, and the four percentages of the total, 0 for no minutes |
| Productividad.RowTotal | src/pages/ProductividadPage.jsx:241-244 | a matrix row's total: its cells summed over HVAC, PIPE and CBTR |
| Productividad.RowTotalIsSumOfCells | src/pages/ProductividadPage.jsx:241-244 | a row total is its HVAC, PIPE and CBTR cells added |
| DashboardModelista.Normalize | src/pages/dashboards/DashboardModelistaPage.jsx:31-37 | the other fields are kept; reprocesos defaults to []; the hours and mm fields are their numeric value, or 0 when missing or not a number |
| DashboardModelista.NormalizeIdempotent | src/pages/dashboards/DashboardModelistaPage.jsx:31-37 | normalising a normalised record changes nothing |
| DashboardModelista.NumericNormalizedFixed | src/pages/dashboards/DashboardModelistaPage.jsx:31-37 | a record whose hours and mm are already numbers keeps them |
| DashboardModelista.NumFieldOfNormalized | src/pages/dashboards/DashboardModelistaPage.jsx:33-35 | the number read from a normalised field is the original's value, or 0 |
| DashboardModelista.NormalizeAll | src/pages/dashboards/DashboardModelistaPage.jsx:31 | normalisation keeps the list length and normalises each record |
| DashboardModelista.FilterProd | src/pages/dashboards/DashboardModelistaPage.jsx:60-64 | an empty user name yields no events |
| DashboardModelista.NormalizeEvent | src/pages/dashboards/DashboardModelistaPage.jsx:64 | the event keeps its fields and its duracionMin becomes its number, or 0 |
| DashboardModelista.FilterProdAppend | src/pages/dashboards/DashboardModelistaPage.jsx:61-64 | filtering splits over concatenation |
| DashboardModelista.FilterProdSound | src/pages/dashboards/DashboardModelistaPage.jsx:61-64 | every kept event comes from an event whose operator equals the name case-insensitively |
| DashboardModelista.FilterProdComplete | src/pages/dashboards/DashboardModelistaPage.jsx:61-64 | every such event is kept, with its minutes made numeric |
| DashboardModelista.StatusCountsBounded | src/pages/dashboards/DashboardModelistaPage.jsx:78-80 | completadas + enProgreso + bloqueadas is at most the number of records |
| DashboardModelista.CountEstado | src/pages/dashboards/DashboardModelistaPage.jsx:78-80 | each count is at most the number of records |
| DashboardModelista.HorasPorActividad | src/pages/dashboards/DashboardModelistaPage.jsx:167-179 | the loops build exactly the per-activity chart map |
| DashboardModelista.ActivityAcc | src/pages/dashboards/DashboardModelistaPage.jsx:169-173 | the chart accumulator after the records: each record's hours added at its activity key |
| DashboardModelista.ProdAcc | src/pages/dashboards/DashboardModelistaPage.jsx:175-178 | the accumulator after the events: each event's minutes added at its Prod key |
| DashboardModelista.TotalHoras | src/pages/dashboards/DashboardModelistaPage.jsx:75-77 | totalHoras: the records' hours plus the events' minutes, a missing or falsy value counted as 0 |
| DashboardModelista.ChartSumsToTotalHoras | src/pages/dashboards/DashboardModelistaPage.jsx:169-179 | the chart values add up to totalHoras |
| DashboardModelista.ChartKeys | src/pages/dashboards/DashboardModelistaPage.jsx:171-176 | the chart keys are exactly the activities ("Sin actividad" when missing) and "Prod: " + (sistema, tipo or "Otros") |
| DashboardModelista.ProyectosMap | src/pages/dashboards/DashboardModelistaPage.jsx:197-207 | the loop builds exactly the per-project map |
| DashboardModelista.Projects | src/pages/dashboards/DashboardModelistaPage.jsx:197-207 | proyectosMap after the loop: one entry per project value, with the records' sums, count and state |
| DashboardModelista.ProjectsSnoc | src/pages/dashboards/DashboardModelistaPage.jsx:198-207 | one more record updates the map by exactly one loop step |
| DashboardModelista.ProjectEntry | src/pages/dashboards/DashboardModelistaPage.jsx:198-207 | a project exists exactly for the records' raw project values ("Sin proyecto" when falsy); its count is its number of records; its estado is Completado exactly when one of its records is, else "En progreso" |
| DashboardModelista.ProjectSums | src/pages/dashboards/DashboardModelistaPage.jsx:201-203 | a project's horas, avanceMm and totalMm are the sums of those fields over its records, a falsy value counted as 0 |
| DashboardModelista.ProjectContents | src/pages/dashboards/DashboardModelistaPage.jsx:198-207 | a project exists exactly for the records' raw project values; its name is that value, its count its number of records, its three numbers the sums over its records, and its estado Completado exactly when one of its records is, else "En progreso" |
| DashboardModelista.NumberAndTextAreTwoProjects | src/pages/dashboards/DashboardModelistaPage.jsx:199-200 | a project numbered 5 and one named "5" are two entries, as in the page's Map |
| DashboardModelista.ProjectCountsSum | src/pages/dashboards/DashboardModelistaPage.jsx:198-209 | the project counts add up to the number of records |
| DashboardModelista.ProjectPercent | src/pages/dashboards/DashboardModelistaPage.jsx:223-225 | the percentage is 0 when totalMm is 0, and within 0..100 when progress does not exceed the total |
| DashboardModelista.StatusVariant | src/pages/dashboards/DashboardModelistaPage.jsx:82-89 | this page's badge: default, secondary and destructive for the three known states, outline for any other |
| DashboardModelista.StatusVariantAgreesWithTemplatePage | src/pages/dashboards/DashboardModelistaPage.jsx:82-89 | this page's badge agrees with the template page's exactly on the known states; unknown states get "outline" |
| DashboardModelista.ProjectBadge | src/pages/dashboards/DashboardModelistaPage.jsx:205-215 | a project's badge is never the outline one |
| LiderDashboard.MockKpis | src/pages/dashboards/LiderDashboardPage.jsx:17-46 | for the mock data: 3590 hours, a 71 % average, 23 reworks, 3 projects |
| LiderDashboard.RoundDiv | src/pages/dashboards/LiderDashboardPage.jsx:42-44 | Math.round of the quotient: the nearest integer, halves upward |
| LiderDashboard.PromedioWithinRange | src/pages/dashboards/LiderDashboardPage.jsx:42-44 | the rounded average lies within the range of the projects' averages |
| LiderDashboard.PromedioAvance | src/pages/dashboards/LiderDashboardPage.jsx:42-44 | the average progress, rounded, NaN for an empty list |
| LiderDashboard.ComputeKpis | src/pages/dashboards/LiderDashboardPage.jsx:41-46 | the four KPIs: total hours, average progress, total reworks and the number of projects |
| LiderDashboard.ReworkBadge | src/pages/dashboards/LiderDashboardPage.jsx:226-230 | the rework count's colour: red over 10, yellow over 5, green otherwise |
| LiderDashboard.ReworkBadgeThresholds | src/pages/dashboards/LiderDashboardPage.jsx:226-230 | the badge is red over 10, yellow for 6..10, green up to 5 |
| LiderDashboard.ReworkBadgeMonotone | src/pages/dashboards/LiderDashboardPage.jsx:226-230 | the badge never gets milder as the count grows |
| LiderDashboard.EstadosSumToHundred | src/pages/dashboards/LiderDashboardPage.jsx:32-36 | the status shares add up to 100 |
| Js.TrimSpec | src/components/RegisterModal.jsx:36-37 | trim removes exactly the leading and trailing white space |
| Js.TrimIdempotent | src/components/RegisterModal.jsx:36-37 | trimming twice is trimming once |
| Js.ToLower | src/pages/DiccionarioMetricasPage.jsx:80-82 | lowercasing keeps the length and maps each character |
| Js.SortBy | src/pages/ProductividadPage.jsx:120 | sorting is a permutation and orders by the key in UTF-16 code-unit order |
| Js.Utf16Length | src/components/RegisterModal.jsx:61 | `length` counts UTF-16 code units: between one and two per character, exactly one each inside the Basic Multilingual Plane |
| Js.Utf16LengthAstral | src/components/RegisterForm.jsx:44 | three astral characters are six code units long |
| Js.CodeUnitRank | src/pages/ProductividadPage.jsx:120 | characters below U+D800 come first, then those outside the Basic Multilingual Plane, then U+E000 to U+FFFF, as their first code units order them |
| Js.AstralBeforeHighPlane | src/pages/ProductividadPage.jsx:120 | an astral character sorts before U+FFFD although its scalar value is larger |
| Js.FirstFieldOfJoin | src/pages/ProductividadPage.jsx:84 | the first field of a joined key is its first part when that part has no separator |
| Js.ParseIntToString | src/pages/PlantillaAvancePage.jsx:98-100 | Number() reads back the decimal text of any integer |

## Left out

- getAllUsers, getUsersByRole and updateUser (src/lib/userService.js:117-136) are not part of this model. AdminUsuarios.Page.LoadUsers takes getAllUsers' result as a parameter.
- startPendingSyncListener (src/lib/userService.js:230-239) subscribes to a browser event and is not modelled. SyncPendingUsers is the sweep it starts.
- src/lib/firestoreService.js, src/lib/authService.js and src/lib/firebase.js are not part of this model.
- Firebase is modelled only as scripted outcomes:
  - each remote call consumes a fault (succeeds, reads no document, or fails);
  - `serverTimestamp` is a marker value;
  - `doc()` validation is approximated as refusing an empty uid or one containing '/'.
- Connectivity (`navigator.onLine`) is constant during one operation.
- Asynchrony, React render timing and `mounted` guards are not modelled. Each awaited step is a sequential step.
- Only flat objects are stored: the JSON round trip drops undefined fields and keeps the rest. Nested values and non-object JSON are not modelled.
- Number() is modelled on integer texts, except in the calculator, which reads decimals with a sign and surrounding white space. Exponents, hexadecimal and Infinity read as NaN there, and floating-point error is not modelled.
- Js.ParseNumber: outside the calculator, a text that is not an integer reads as NaN. For example, 2.5 hours typed into PlantillaAvance.SubmitAvance are recorded as NaN, where the browser keeps 2.5.
- CalculadoraCgt.Round2: `toFixed(2)` is stated only as a rounding within 0.005, not as binary floating point.
- DashboardModelista.ProjectPercent: `(avanceMm / totalMm) * 100` is computed on exact rationals, not doubles, so near a .5 tie the rounding can differ from the browser's (29 of 200 gives 15 here, 14 in JavaScript).
- Js.ToLower: `toLowerCase` is modelled on ASCII and Latin-1 capitals only. Other capitals, such as Greek or Cyrillic ones, are kept unchanged, where the browser lowers them.
- Productividad.PorOperario: `localeCompare` (src/pages/ProductividadPage.jsx:106) is approximated by UTF-16 code-unit order, the order of the default sort; locale collation is not modelled.
- DashboardModelista.HorasPorActividad: the chart accumulator is a plain object, modelled as a map from property key to number that starts every key at 0. In the browser, an activity named like an Object.prototype member starts from the inherited value instead. For `constructor`, `toString`, `valueOf` or `hasOwnProperty`, that value is a function, so its text is concatenated with the hours. A `__proto__` activity never becomes an entry. The "Prod: " keys cannot be such names. The order of Object.entries is not modelled.
- DashboardModelista.ChartSumsToTotalHoras: holds in the model. In the browser it fails when an activity is named like an Object.prototype member, for the reason above.
- DashboardModelista.ChartKeys: in the browser, a `__proto__` activity has no chart entry, and the entry of another Object.prototype name holds text, not a number.
- DashboardModelista.ProyectosMap: keys are compared as values, which agrees with the Map's SameValueZero on strings, numbers, booleans and null. Object values, such as a Firestore Timestamp, are compared by identity in the browser. Here the one serverTimestamp marker is equal to itself, so two records holding the marker share a project. The Map's insertion order is not modelled.
- DashboardModelista.ProjectsSnoc: the same key comparison as DashboardModelista.ProyectosMap.
- DashboardModelista.ProjectContents: the same key comparison as DashboardModelista.ProyectosMap.
- DashboardModelista.Normalize: states the reading of `Number(x) or 0` on integer texts only, so fractional hours are not modelled.
- Normalisation does not model a `reprocesos` field that is present but not an array.
- The `toDate().toLocaleDateString()` cell of the admin page and all date formatting are not modelled.
- AdminUsuarios: the crash when `currentUser` is null (src/pages/AdminUsuariosPage.jsx:79) is not modelled. The current uid is a constructor parameter.
- The outer `catch` of the auth context (src/lib/AuthContext.jsx:67-76) cannot be reached from the modelled steps, because every inner call is caught. It is modelled on its own as AuthContext.OuterError with the error code as input.
- Form setters, `handleChange` and the select and checkbox handlers are plain field updates and are not modelled.
- The Math.round percentages of the template page (src/pages/PlantillaAvancePage.jsx:450-452) are not modelled. They are display arithmetic with no zero guard.
- Productividad: the event list is loaded from and saved to localStorage under "prod_eventos" (src/pages/ProductividadPage.jsx:29-36). That persistence is not modelled; every operation takes the current event list as a parameter.
- The productivity percentages are stated only in their zero case, and `fmt`/`toLocaleString` formatting is left out.
- The routes missing from src/main.jsx for /productividad and /calculadora-cgt are not modelled. MainLayout's navigation targets are stated as the paths it passes.
- Map and object iteration order is not modelled:
  - maps are Dafny maps;
  - the per-operator rows are stated up to their sorting;
  - the chart and project lists are stated as maps.
- Static pages (MetodologiaPage, ManualUsuarioPage, DashboardKPIsPage), src/ui and all JSX rendering, charts and icons are not modelled.
