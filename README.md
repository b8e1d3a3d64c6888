# Church contribution manager — a Dafny model

The system is a small church administration application. An Express server keeps
in-memory collections behind CRUD handlers: notifications, administrators and users, plus a
second users array that only the administrator controller reads. A React
client keeps its own list of registered members (`churchUsers`) and their tithe and offering
reports (`churchReports`) in the browser's storage, together with the login session
(`churchUser`). Member pages log in, register, file a report, calculate a tithe and browse the
member's own report history. They are guarded by a route table. The administrator pages filter
and total every report, rank the payment methods, list active, inactive and searched users,
and show a dashboard of statistics.

The model has one Dafny module per source file, plus a few shared modules:

- `RecordStore` and `Controllers` model the server. One `Store` class is an array a
  controller keeps; `Server` holds four of them, one for each of the three controllers'
  arrays and one for the users array the administrator controller reads.
- `Storage` models the browser storage as a `LocalStorage` class over a `map`, together with
  the `useData` hook (`DataHook`) and the `church_` retention sweep.
- `Auth` models the authentication context, as the `AuthProvider` class.
- `Routes` models the guard and the route table.
- Each page is a module. Pages whose handlers change component state are classes:
  `ReportForm`, `TitheCalculator` and `ReportHistory`.
- Shared modules: `Domain` (the record types and amount sums), `Dates` (JavaScript `Date`
  comparisons on `YYYY-MM-DD` strings), `Criteria` (the shared filter tests), `Seqs` (an
  order-keeping `Filter`), `StableSort` (the stable descending sort that `Array.prototype.sort`
  performs) and `Tally` (an insertion-ordered object used as a running total per key).

Paths in the table below are relative to the repository root.

## Model

| member | source | states |
|---|---|---|
| RecordStore.Status | packages/backend/controllers/notificationController.js:7-19 | 201 exactly for a created record, 404 exactly for a missing id, 200 otherwise |
| RecordStore.TrimStart | packages/backend/controllers/notificationController.js:14 | `parseInt` skips exactly the leading JavaScript white space and line terminators (including the Unicode space separators): the rest is a suffix that starts with none of them |
| RecordStore.ParseInt | packages/backend/controllers/notificationController.js:14 | `parseInt(req.params.id)`: a number comes only from text holding a decimal digit, and a negative one only after a leading `-` |
| RecordStore.ParseSigned | packages/backend/controllers/notificationController.js:14 | after the white space, an optional sign: a negative result only after `-`, and any result only with a digit present |
| RecordStore.ParseUnsigned | packages/backend/controllers/notificationController.js:14 | after the sign, a `0x` or `0X` prefix selects base 16; a result is never negative and needs a leading digit |
| RecordStore.LeadingDigits | packages/backend/controllers/notificationController.js:14 | the value of the leading digit run: a number exactly when the text starts with a digit of the base, never negative |
| RecordStore.ParseIntSkipsSpace | packages/backend/controllers/notificationController.js:14 | leading white space does not change the parsed id |
| RecordStore.ParseDecimalIgnoresTail | packages/backend/controllers/notificationController.js:14 | text after a decimal id, such as `3abc`, is ignored, unless it turns a lone `0` into the `0x` prefix |
| RecordStore.TextIdNeverMatches | packages/backend/controllers/notificationController.js:14 | `HasId` is strict equality: a record whose id is a string never matches a parsed number |
| RecordStore.DigitOf | packages/backend/controllers/notificationController.js:14 | in base 10 a character is a digit exactly when it is `0`..`9`, with a value below 10 |
| RecordStore.DigitRun | packages/backend/controllers/notificationController.js:14 | the longest prefix of digits: every counted character is a digit and the next one is not |
| RecordStore.DigitsValue | packages/backend/controllers/notificationController.js:14 | the value of a digit string is never negative |
| RecordStore.DecimalString | packages/backend/controllers/notificationController.js:14 | the decimal text of an id is non-empty, all digits, with no leading zero except for 0 |
| RecordStore.DecimalValue | packages/backend/controllers/notificationController.js:14 | the decimal text of `n` denotes `n` |
| RecordStore.ParseDecimalRoundTrip | packages/backend/controllers/notificationController.js:14 | an id written in decimal in the URL parses back to that id |
| RecordStore.NoDigitsIsNaN | packages/backend/controllers/notificationController.js:14-17 | a parameter without any digit parses to NaN, which no record id matches |
| RecordStore.FirstWithId | packages/backend/controllers/notificationController.js:14 | `findIndex` with the test `HasId`: the first index whose id is strictly equal to the parsed number; none when NaN or when no record matches |
| RecordStore.FirstWithIdAt | packages/backend/controllers/notificationController.js:14 | the first matching position is the one `findIndex` returns |
| RecordStore.Scan | packages/backend/controllers/notificationController.js:14 | the search loop finds exactly the first record with that id |
| RecordStore.NewRecord | packages/backend/controllers/notificationController.js:8 | the new record has the body's fields plus `id`; the id is length + 1 unless the body supplies one, which wins |
| RecordStore.Merge | packages/backend/controllers/notificationController.js:18 | the merged record has both key sets; body fields override, others are kept |
| RecordStore.CreateAfterDeleteReusesId | packages/backend/controllers/notificationController.js:8-27 | after deleting an earlier record, the next create hands out an id the last record already has |
| RecordStore.Store.constructor | packages/backend/controllers/notificationController.js:1 | the collection starts as the model module's array |
| RecordStore.Store.List | packages/backend/controllers/notificationController.js:3-5 | answers with the collection as it is |
| RecordStore.Store.FindIndex | packages/backend/controllers/notificationController.js:14-17 | the lookup is `findIndex` on the parsed parameter |
| RecordStore.Store.Create | packages/backend/controllers/notificationController.js:7-11 | appends the new record and answers 201 with it; the old records are a prefix |
| RecordStore.Store.Update | packages/backend/controllers/notificationController.js:13-20 | merges the body into the first match and answers with it, leaving every other record; 404 and no change when nothing matches |
| RecordStore.Store.Delete | packages/backend/controllers/notificationController.js:22-29 | splices out the first match and answers with a one-element list; 404 and no change when nothing matches |
| Controllers.Server.constructor | backend/controllers/adminController.js:1-2 | four distinct collections holding the initial arrays: notifications, admins, the user controller's users and the admin controller's own users module; the three controllers' stores each carry their own 404 message, and the fourth is only ever listed, so it never answers 404 |
| Controllers.Server.GetNotifications | packages/backend/controllers/notificationController.js:3-5 | lists the notifications |
| Controllers.Server.CreateNotification | packages/backend/controllers/notificationController.js:7-11 | the create effect on the notifications only |
| Controllers.Server.UpdateNotification | packages/backend/controllers/notificationController.js:13-20 | the update effect, with the notification 404 message |
| Controllers.Server.DeleteNotification | packages/backend/controllers/notificationController.js:22-29 | the delete effect, with the notification 404 message |
| Controllers.Server.GetAdmins | backend/controllers/adminController.js:4-6 | lists the admins |
| Controllers.Server.CreateAdmin | backend/controllers/adminController.js:8-12 | the create effect on the admins only |
| Controllers.Server.UpdateAdmin | backend/controllers/adminController.js:14-21 | the update effect, with the admin 404 message |
| Controllers.Server.DeleteAdmin | backend/controllers/adminController.js:23-30 | the delete effect, with the admin 404 message |
| Controllers.Server.GetAdminsAndUsers | backend/controllers/adminController.js:32-34 | answers with the admins and the admin controller's own users array, both unchanged |
| Controllers.Server.GetUsers | package/backend/controllers/userController.js:3-5 | lists the users |
| Controllers.Server.CreateUser | package/backend/controllers/userController.js:7-11 | the create effect on the users only; the users the admin controller answers with do not change |
| Controllers.Server.UpdateUser | package/backend/controllers/userController.js:13-20 | the update effect, with the user 404 message |
| Controllers.Server.DeleteUser | package/backend/controllers/userController.js:22-29 | the delete effect, with the user 404 message |
| Storage.LocalStorage.constructor | packages/frontend/src/hooks/useLocalStorage.ts:15 | the storage holds the given entries |
| Storage.LocalStorage.SetItem | packages/frontend/src/hooks/useLocalStorage.ts:42 | one key is set and nothing else changes |
| Storage.LocalStorage.RemoveItem | packages/frontend/src/hooks/useLocalStorage.ts:68 | one key is removed and nothing else changes |
| Storage.LocalStorage.Sweep | packages/frontend/src/hooks/useLocalStorage.ts:57-76 | the loop over the key snapshot leaves exactly the entries `Swept` keeps |
| Storage.LocalStorage.SweepWithSetting | packages/frontend/src/hooks/useLocalStorage.ts:53-79 | sweeps with the number `daysDiff > persistenceTime` makes of the setting, whatever its type |
| Storage.AsNumber | packages/frontend/src/hooks/useLocalStorage.ts:67 | the number a comparison makes of a stored value: a number is itself, an empty array 0, a user, a stamped object, an unreadable text or a non-empty array NaN |
| Storage.NaNSettingKeepsAll | packages/frontend/src/hooks/useLocalStorage.ts:67 | a setting that compares as NaN removes nothing |
| Storage.ZeroSettingRemovesPastStamps | packages/frontend/src/hooks/useLocalStorage.ts:65-68 | a setting that compares as 0 (`null`, `false`, `[]`) removes every `church_` key with a truthy timestamp in the past |
| Storage.ReadUsers | packages/frontend/src/pages/Login.tsx:40 | an absent or empty `churchUsers` reads as no users, a stored user list as itself, the empty array `[]` (whichever list form holds it) as no users; any other value that is not a user list is an error |
| Storage.ReadReports | packages/frontend/src/pages/ReportForm.tsx:88 | the same for `churchReports` and report lists, `[]` included |
| Storage.InitialValue | packages/frontend/src/hooks/useLocalStorage.ts:10-21 | with a data source, the default; otherwise the stored value, or the default for an absent, empty or unparsable one |
| Storage.DefaultRetentionWindow | packages/frontend/src/hooks/useLocalStorage.ts:54 | with nothing stored, the retention window is 30 days |
| Storage.DataHook.constructor | packages/frontend/src/hooks/useLocalStorage.ts:9-21 | the hook's state starts at `InitialValue` |
| Storage.DataHook.SetValue | packages/frontend/src/hooks/useLocalStorage.ts:34-47 | the new state is the update applied to the old; it is written under the key, or handed to the data source instead |
| Storage.Swept | packages/frontend/src/hooks/useLocalStorage.ts:61-75 | a key survives exactly when it is not `Removable`: it lacks the `church_` prefix or is not `Expired`, that is, it has no truthy timestamp whose number is more than `days` days before now; survivors keep their values |
| Storage.ExpiredInMilliseconds | packages/frontend/src/hooks/useLocalStorage.ts:66-67 | the day comparison equals comparing elapsed milliseconds with `days` whole days |
| Storage.SweepKeeps | packages/frontend/src/hooks/useLocalStorage.ts:62-65 | keys without the prefix, and values without a truthy numeric timestamp, survive unchanged |
| Storage.SweepSparesAppKeys | packages/frontend/src/hooks/useLocalStorage.ts:62 | the users, reports, session and retention keys never match the prefix, so no sweep removes them |
| Storage.SweepIdempotent | packages/frontend/src/hooks/useLocalStorage.ts:57-76 | a second sweep at the same moment removes nothing more |
| Auth.RestoredUser | packages/frontend/src/contexts/AuthContext.tsx:29-33 | a reload restores a user exactly when a user object is stored under `churchUser` |
| Auth.AuthProvider.constructor | packages/frontend/src/contexts/AuthContext.tsx:24-25 | no user, and loading |
| Auth.AuthProvider.LoadSession | packages/frontend/src/contexts/AuthContext.tsx:27-40 | loading ends; a stored user becomes the user; unparsable session text is removed and any other storage is left alone |
| Auth.AuthProvider.Login | packages/frontend/src/contexts/AuthContext.tsx:42-45 | the user is set and persisted under `churchUser` |
| Auth.AuthProvider.Logout | packages/frontend/src/contexts/AuthContext.tsx:47-50 | no user, and the persisted session is removed |
| Auth.AuthProvider.IsAdmin | packages/frontend/src/contexts/AuthContext.tsx:52 | true exactly for a user whose `isAdmin` is true; false without a user |
| Auth.AuthProvider.State | packages/frontend/src/contexts/AuthContext.tsx:6-10 | loading, anonymous, member and admin are told apart by the loading flag, the user and the admin flag |
| Auth.LoginSurvivesReload | packages/frontend/src/contexts/AuthContext.tsx:29-44 | a session persisted by `login` is restored unchanged by the next load |
| Auth.LogoutIsFinal | packages/frontend/src/contexts/AuthContext.tsx:47-50 | after `logout` a reload restores nobody |
| Auth.LogoutThenReload | packages/frontend/src/contexts/AuthContext.tsx:27-50 | logging out and reloading leaves the provider anonymous, with the session key gone |
| Auth.LoginThenLogout | packages/frontend/src/contexts/AuthContext.tsx:42-50 | `login` then `logout` leaves no user and nothing for a reload to restore, and the storage as `logout` alone would |
| Routes.ProtectedRoute | packages/frontend/src/App.tsx:34-50 | spinner while loading, `/` without a user, `/dashboard` for a non-admin on an admin route; the page renders exactly when loaded, logged in and admin where required |
| Routes.GuardByState | packages/frontend/src/App.tsx:34-50 | the guard's outcome for each of the four authentication states |
| Routes.TrimTrailingSlashes | packages/frontend/src/App.tsx:77-134 | a prefix of the path that does not end in `/`, and only slashes were dropped |
| Routes.PathKey | packages/frontend/src/App.tsx:77-134 | the form the router compares: no capital letters and no trailing slash |
| Routes.PlainPathKey | packages/frontend/src/App.tsx:77-134 | a lower-case path without a trailing slash is its own key |
| Routes.PathKeyIdempotent | packages/frontend/src/App.tsx:77-134 | taking the key twice is taking it once |
| Routes.RouteKeys | packages/frontend/src/App.tsx:77-134 | every declared path is its own key, except `/`, whose key is empty |
| Routes.DistinctPaths | packages/frontend/src/App.tsx:77-134 | no path is declared twice |
| Routes.AccessOf | packages/frontend/src/App.tsx:77-134 | a protected access comes from a route whose path matches ignoring case and trailing slashes; a path that matches none falls to the public catch-all |
| Routes.AccessIn | packages/frontend/src/App.tsx:77-134 | the first route whose path matches decides its access |
| Routes.AccessAt | packages/frontend/src/App.tsx:77-134 | the first matching route's access is the one returned |
| Routes.AccessByKey | packages/frontend/src/App.tsx:77-134 | the access of a path depends only on its key: case and trailing slashes do not matter |
| Routes.DeclaredPath | packages/frontend/src/App.tsx:77-134 | every declared path reaches its own route |
| Routes.TrailingSlashAdminPath | packages/frontend/src/App.tsx:106-110 | `/admin/` reaches the admin dashboard's admin-only guard |
| Routes.CapitalisedAdminPath | packages/frontend/src/App.tsx:116-120 | `/Admin/Users` reaches the users page's admin-only guard |
| Routes.Visit | packages/frontend/src/App.tsx:77-134 | public routes render; protected ones go through the guard with their admin requirement |
| Routes.AdminPagesRequireAdmin | packages/frontend/src/App.tsx:105-130 | every `/admin...` route except the admin login requires an admin |
| Routes.MemberPagesNeedLoginOnly | packages/frontend/src/App.tsx:84-103 | the four member routes require a login but not an admin |
| Routes.GuardedPagesStayClosed | packages/frontend/src/App.tsx:34-130 | for every path, however it is capitalised or slashed, no protected page renders without a session, and no admin page renders for a non-admin |
| LoginPage.FindByCredentials | packages/frontend/src/pages/Login.tsx:41 | the first stored user with both the cédula and the password; none exactly when no user has both |
| LoginPage.HomeFor | packages/frontend/src/pages/Login.tsx:49 | `/admin` exactly for admins, `/dashboard` exactly for the others |
| LoginPage.LoginDecision | packages/frontend/src/pages/Login.tsx:37-63 | an error exactly when the user list cannot be read; a login only as the first stored user matching both credentials (no earlier user matches), sent home; wrong credentials only when nobody matches |
| LoginPage.SubmitLogin | packages/frontend/src/pages/Login.tsx:37-64 | on a match the user is logged in and persisted; otherwise the session and the storage are unchanged |
| LoginPage.LoginRedirect | packages/frontend/src/pages/Login.tsx:33-35 | a user who is already logged in is sent to their home, and only then |
| LoginPage.HomeIsOpenToItsUser | packages/frontend/src/pages/Login.tsx:49 | wherever a login sends a user, the guard lets that user in |
| AdminLoginPage.AdminSessionUser | packages/frontend/src/pages/AdminLogin.tsx:43-55 | the fixed admin record, `admin-1`, an active leader with the admin flag, created at login time |
| AdminLoginPage.AdminLoginDecision | packages/frontend/src/pages/AdminLogin.tsx:42 | a session exactly for `admin` / `admin123` |
| AdminLoginPage.AdminCredentialsPassSchema | packages/frontend/src/pages/AdminLogin.tsx:15-18 | the fixed pair passes `AdminLoginSchema`, the form's own length checks |
| AdminLoginPage.SubmitAdminLogin | packages/frontend/src/pages/AdminLogin.tsx:39-77 | the fixed pair logs the admin session in and persists it; anything else changes nothing |
| AdminLoginPage.AdminLoginRedirect | packages/frontend/src/pages/AdminLogin.tsx:35-37 | only a session that is already an admin is redirected, to `/admin` |
| AdminLoginPage.AdminSessionOpensEveryPage | packages/frontend/src/pages/AdminLogin.tsx:52-62 | the admin session renders every route |
| RegisterPage.NewUser | packages/frontend/src/pages/Register.tsx:55-68 | the new user carries the form's fields, is never an admin, and has no e-mail when it was left empty |
| RegisterPage.CedulaTaken | packages/frontend/src/pages/Register.tsx:74 | true exactly when some stored user has that cédula |
| RegisterPage.SubmitRegistration | packages/frontend/src/pages/Register.tsx:53-99 | an unreadable list is an error and a known cédula is rejected, both without change; otherwise the new user is appended |
| RegisterPage.RegistrationKeepsCedulasDistinct | packages/frontend/src/pages/Register.tsx:73-84 | an accepted registration keeps the stored cédulas pairwise distinct |
| RegisterPage.RegistrationPassesLoginSchema | packages/frontend/src/pages/Register.tsx:16-30 | `RegisterSchema` is stricter than `LoginSchema` (Login.tsx:13-16), so registered credentials pass the login form |
| RegisterPage.RegisteredUserWellFormed | packages/frontend/src/pages/Register.tsx:16-30 | what `RegisterSchema` guarantees of the stored user: a known role, the minimum lengths, and an address (`IsEmail`) whenever an e-mail is kept |
| RegisterPage.RegisteredUserCanLogIn | packages/frontend/src/pages/Register.tsx:83-91 | right after registering, the same credentials pass the login schema and log in as the new user, who lands on `/dashboard` |
| ReportFormPage.SchemaPaymentMethods | packages/frontend/src/pages/ReportForm.tsx:20 | the form accepts every payment method of the report type except `Efectivo $` |
| ReportFormPage.NewReport | packages/frontend/src/pages/ReportForm.tsx:73-85 | the stored report carries the form's fields and the user's id; every amount is present, a missing one as 0 |
| ReportFormPage.ConfirmedReportHasPositiveTotal | packages/frontend/src/pages/ReportForm.tsx:21-23 | a report that passes the schema and the some-amount guard has a total above zero |
| ReportFormPage.SomeAmountIffPositiveTotal | packages/frontend/src/pages/ReportForm.tsx:18-27 | under `ReportSchema`, `HasSomeAmount` holds exactly when the stored report's total is positive, and every stored amount is non-negative |
| ReportFormPage.ReportForm.constructor | packages/frontend/src/pages/ReportForm.tsx:35-36 | no confirmation shown, no pending data |
| ReportFormPage.ReportForm.OnSubmit | packages/frontend/src/pages/ReportForm.tsx:54-67 | a form with no non-zero amount is rejected without change; otherwise it is pending and the confirmation is shown |
| ReportFormPage.ReportForm.CancelConfirmation | packages/frontend/src/pages/ReportForm.tsx:116 | hides the confirmation and keeps the pending data |
| ReportFormPage.ReportForm.ConfirmReport | packages/frontend/src/pages/ReportForm.tsx:69-108 | nothing happens without pending data or a user; an unreadable list changes nothing; otherwise the report is appended and the pending state cleared |
| TitheCalculatorPage.CalculateTithe | packages/frontend/src/pages/TitheCalculator.tsx:18-25 | the tithe is one tenth of the amount, at 10 percent |
| TitheCalculatorPage.TitheSumIsTenth | packages/frontend/src/pages/TitheCalculator.tsx:34-38 | the total of the calculated tithes is one tenth of the total amount |
| TitheCalculatorPage.CalculateAll | packages/frontend/src/pages/TitheCalculator.tsx:34 | the map loop computes one row per amount |
| TitheCalculatorPage.TotalOf | packages/frontend/src/pages/TitheCalculator.tsx:38 | the reduce loop totals the tithes |
| TitheCalculatorPage.RemoveAt | packages/frontend/src/pages/TitheCalculator.tsx:48 | drops exactly position `index` and shifts the rest; an out-of-range index removes nothing |
| TitheCalculatorPage.TitheCalculator.constructor | packages/frontend/src/pages/TitheCalculator.tsx:14-16 | one zero amount, no rows, a zero total |
| TitheCalculatorPage.TitheCalculator.SetAmounts | packages/frontend/src/pages/TitheCalculator.tsx:31-39 | the rows and the total are recomputed; the total is a tenth of the amounts' sum |
| TitheCalculatorPage.TitheCalculator.HandleAmountChange | packages/frontend/src/pages/TitheCalculator.tsx:27-40 | the entry becomes the parsed value, or 0 when unparsable; rows and total stay up to date |
| TitheCalculatorPage.TitheCalculator.AddAmount | packages/frontend/src/pages/TitheCalculator.tsx:42-44 | appends a zero entry and leaves the rows and the total as they were |
| TitheCalculatorPage.TitheCalculator.RemoveAmount | packages/frontend/src/pages/TitheCalculator.tsx:46-57 | removes the entry and recomputes only while more than one remains, so at least one entry is always left |
| TitheCalculatorPage.AddZeroKeepsSum | packages/frontend/src/pages/TitheCalculator.tsx:42-44 | adding a zero entry leaves the amounts' total, so the stale tithe total is still right |
| Domain.FieldSumsDecompose | packages/frontend/src/pages/ReportHistory.tsx:89-93 | the three per-type totals (`SumField`) add up to the sum of the report totals |
| Domain.SumFieldAppend | packages/frontend/src/pages/ReportHistory.tsx:89-93 | a per-type total of two lists is the sum of their totals |
| Domain.SumFieldNonNegative | packages/frontend/src/pages/ReportForm.tsx:21-23 | with amounts that are never negative, every per-type total is non-negative |
| Criteria.DateBoundsInclusive | packages/frontend/src/pages/ReportHistory.tsx:39-46 | a report dated on a bound passes that bound (`OnOrAfter`, `OnOrBefore`) |
| Criteria.DateBoundsExclude | packages/frontend/src/pages/ReportHistory.tsx:39-46 | a valid date strictly outside a valid bound is excluded |
| Criteria.UnparsableDatePasses | packages/frontend/src/pages/ReportHistory.tsx:35-46 | an invalid date compares false, so no date bound excludes it |
| ReportHistoryPage.UserReports | packages/frontend/src/pages/ReportHistory.tsx:29-30 | exactly the stored reports the session user `Owns`; none without a session |
| ReportHistoryPage.FilteredHistory | packages/frontend/src/pages/ReportHistory.tsx:33-75 | exactly the member's reports that pass every active criterion (`PassesHistory`: the date bounds, `Accepts` for each choice, `WithinAmounts`) |
| ReportHistoryPage.FilteredHistoryOrder | packages/frontend/src/pages/ReportHistory.tsx:34 | the result keeps the member's order, and filtering again changes nothing |
| ReportHistoryPage.UserReportsOrder | packages/frontend/src/pages/ReportHistory.tsx:30 | the member's list keeps the stored order |
| ReportHistoryPage.ClearedHistoryKeepsAll | packages/frontend/src/pages/ReportHistory.tsx:77-87 | with the filters cleared every one of the member's reports is shown: `Accepts` takes every value for `all` |
| ReportHistoryPage.CrossedAmountBoundsKeepNone | packages/frontend/src/pages/ReportHistory.tsx:54-61 | a minimum above the maximum lets no report through |
| ReportHistoryPage.AmountBoundsInclusive | packages/frontend/src/pages/ReportHistory.tsx:54-61 | both amount bounds include a total equal to them |
| ReportHistoryPage.SumWithinAmountBounds | packages/frontend/src/pages/ReportHistory.tsx:54-61 | with every report in range (as every report `FilteredHistory` shows is, through `PassesHistory`), the sum of the totals lies between count times minimum and count times maximum |
| ReportHistoryPage.ReportHistory.constructor | packages/frontend/src/pages/ReportHistory.tsx:18-26 | the filters start cleared |
| ReportHistoryPage.ReportHistory.SetFilters | packages/frontend/src/pages/ReportHistory.tsx:18 | the filters become the given ones |
| ReportHistoryPage.ReportHistory.ClearFilters | packages/frontend/src/pages/ReportHistory.tsx:77-87 | the filters return to their cleared state |
| AdminReportsPage.FindUser | packages/frontend/src/pages/AdminReports.tsx:37 | the first user with that id; none exactly when no user has it |
| AdminReportsPage.FilteredAdmin | packages/frontend/src/pages/AdminReports.tsx:34-71 | exactly the stored reports that pass every active criterion (`PassesAdmin`), the role read by `RoleAccepts` from the first user with the report's id |
| AdminReportsPage.FilteredAdminOrder | packages/frontend/src/pages/AdminReports.tsx:35 | the result keeps the stored order, and filtering again changes nothing |
| AdminReportsPage.ClearedAdminKeepsAll | packages/frontend/src/pages/AdminReports.tsx:104-113 | with the filters cleared every report is shown |
| AdminReportsPage.OrphanReportsNeedNoRole | packages/frontend/src/pages/AdminReports.tsx:64-67 | once a role is chosen, a report whose author is not a stored user is never shown |
| AdminReportsPage.TotalsOfFields | packages/frontend/src/pages/AdminReports.tsx:74-102 | each field of `TotalsOf`, the fold of `Step`, is the sum of that amount over the reports |
| AdminReportsPage.TotalsOfBreakdown | packages/frontend/src/pages/AdminReports.tsx:81-91 | the currency and payment-method tallies are the per-key folds `ByKey` |
| AdminReportsPage.ComputeTotals | packages/frontend/src/pages/AdminReports.tsx:74-102 | the reduce loop yields the per-field sums, and the total is the sum of the three |
| AdminReportsPage.TotalIsSumOfFields | packages/frontend/src/pages/AdminReports.tsx:76-79 | `total` equals tithes plus offerings plus special offerings |
| AdminReportsPage.ByKeyDistinctAndSum | packages/frontend/src/pages/AdminReports.tsx:81-91 | each tally has every key once, and its values add up to the total |
| AdminReportsPage.ByKeyKeys | packages/frontend/src/pages/AdminReports.tsx:81-91 | a tally has exactly the keys that occur among the reports |
| AdminReportsPage.ByKeyGet | packages/frontend/src/pages/AdminReports.tsx:81-91 | the value for a key is the sum of the totals of the reports with that key |
| AdminReportsPage.MetodoRanking | packages/frontend/src/pages/AdminReports.tsx:386-387 | the payment-method totals, largest first, the same entries |
| Tally.Add | packages/frontend/src/pages/AdminReports.tsx:88-91 | adds the amount to the key's entry, or appends `(key, amount)` at the end for a new key; an existing key leaves every position's key in place; other keys, distinctness and the grand sum are kept |
| AdminUsersPage.ReportsOf | packages/frontend/src/pages/AdminUsers.tsx:41 | exactly the reports with that user id |
| AdminUsersPage.GetUserData | packages/frontend/src/pages/AdminUsers.tsx:40-58 | the user's reports and their count, the tithe and offering sums, the last stored report, and inactive exactly when there is none or it is dated before the cutoff |
| AdminUsersPage.LastReportIsLastStored | packages/frontend/src/pages/AdminUsers.tsx:44 | the last report is the user's last in stored order: no later stored report is theirs |
| AdminUsersPage.ActiveUsers | packages/frontend/src/pages/AdminUsers.tsx:60 | exactly the users flagged as active members |
| AdminUsersPage.InactiveUsers | packages/frontend/src/pages/AdminUsers.tsx:61-66 | exactly the users the tab's test `ListedInactive` accepts: not active members, or a last report before the cutoff |
| AdminUsersPage.ListedInactiveVersusIsInactive | packages/frontend/src/pages/AdminUsers.tsx:48-65 | the tab lists the non-members plus only those users with reports that `isInactive` flags |
| AdminUsersPage.SilentActiveMemberNotListed | packages/frontend/src/pages/AdminUsers.tsx:48-65 | an active member without reports is flagged inactive but not listed in the tab |
| AdminUsersPage.StaleActiveMemberInBothTabs | packages/frontend/src/pages/AdminUsers.tsx:60-66 | an active member with a stale last report is in both the active and the inactive tab |
| AdminUsersPage.SearchUsers | packages/frontend/src/pages/AdminUsers.tsx:79-84 | exactly the users `MatchesSearch` accepts: name or surname containing the term ignoring case, or cédula or phone containing it as typed |
| AdminUsersPage.EmptySearchKeepsAll | packages/frontend/src/pages/AdminUsers.tsx:79-84 | an empty term keeps every user in order |
| AdminUsersPage.NameSearchIgnoresCase | packages/frontend/src/pages/AdminUsers.tsx:80-81 | a user whose name contains the term ignoring case is found, by the term as typed and by its lower-case form |
| AdminUsersPage.DetailHistory | packages/frontend/src/pages/AdminUsers.tsx:398-400 | the first ten (or all) of the user's reports sorted newest date first, drawn from the user's reports |
| AdminUsersPage.DetailHistoryIsNewest | packages/frontend/src/pages/AdminUsers.tsx:398-400 | the shown reports are the newest: every report the sort leaves past the tenth is no newer than any shown one |
| AdminUsersPage.DetailHistoryNewestFirst | packages/frontend/src/pages/AdminUsers.tsx:399 | between two shown reports with valid dates, the earlier-shown one is never older |
| AdminDashboardPage.ThisMonth | packages/frontend/src/pages/AdminDashboard.tsx:49-53 | exactly the reports dated in the current month and year |
| AdminDashboardPage.ComputeStats | packages/frontend/src/pages/AdminDashboard.tsx:43-54 | the counts and sums of the statistics; active members and this month's reports never exceed their totals |
| AdminDashboardPage.MonthlyAverage | packages/frontend/src/pages/AdminDashboard.tsx:151 | twelve times the average is tithes plus offerings |
| AdminDashboardPage.ActivityOf | packages/frontend/src/pages/AdminDashboard.tsx:57-63 | the user's report count, and a last date exactly when they have reports |
| AdminDashboardPage.ActivityMatchesUserData | packages/frontend/src/pages/AdminDashboard.tsx:57-63 | the dashboard's count and last date are the user page's |
| AdminDashboardPage.Activities | packages/frontend/src/pages/AdminDashboard.tsx:57-63 | one activity entry per user, in user order |
| AdminDashboardPage.UserActivity | packages/frontend/src/pages/AdminDashboard.tsx:57-64 | the same entries, most reports first |
| AdminDashboardPage.RankingKeepsTiesInOrder | packages/frontend/src/pages/AdminDashboard.tsx:64 | users with equal counts keep their stored order |
| AdminDashboardPage.DashboardInactiveUsers | packages/frontend/src/pages/AdminDashboard.tsx:70-73 | exactly the ranked users `DashboardInactive` accepts: no (or an empty) last date, or one before the cutoff |
| AdminDashboardPage.NoReportsMeansInactive | packages/frontend/src/pages/AdminDashboard.tsx:71 | a user without reports is always inactive here |
| AdminDashboardPage.DashboardAgreesWithUserPage | packages/frontend/src/pages/AdminDashboard.tsx:70-73 | for a non-empty last date the dashboard agrees with the user page's `isInactive` |
| AdminDashboardPage.EmptyLastDateDisagrees | packages/frontend/src/pages/AdminDashboard.tsx:71 | an empty last date is inactive here but not on the user page |
| AdminDashboardPage.Preview | packages/frontend/src/pages/AdminDashboard.tsx:183 | at most the first five entries, all of them when there are five or fewer |
| AdminDashboardPage.Overflow | packages/frontend/src/pages/AdminDashboard.tsx:229-233 | the "more" line appears exactly past five entries |
| AdminDashboardPage.PreviewAndOverflowCoverAll | packages/frontend/src/pages/AdminDashboard.tsx:218-233 | the preview and the "more" count account for every entry once |
| AdminDashboardPage.RecentActivity | packages/frontend/src/pages/AdminDashboard.tsx:249-251 | at most five reports, newest creation first, the front of the sorted list |
| AdminDashboardPage.RecentActivityIsNewest | packages/frontend/src/pages/AdminDashboard.tsx:249-251 | no report left out was created after one that is shown |
| Dates.BeforeIsDayNumberOrder | packages/frontend/src/pages/AdminUsers.tsx:399 | the numeric sort key orders valid days chronologically |
| Dates.TwoMonthsBefore | packages/frontend/src/pages/AdminUsers.tsx:46-47 | two months back from `now`, borrowing from the year, keeping the day and the time |
| Dates.TwoMonthsBeforeIsEarlier | packages/frontend/src/pages/AdminUsers.tsx:46-48 | the cutoff is strictly before `now` |
| Dates.ParseIsoDate | packages/frontend/src/pages/ReportHistory.tsx:35 | a parsed date has a month of 1..12, a day of 1..31 and a four-digit year |
| Dates.FormatIsoDate | packages/frontend/src/pages/ReportForm.tsx:48 | the date part of the ISO form is ten characters |
| Dates.ParseFormatRoundTrip | packages/frontend/src/pages/ReportForm.tsx:48 | the default `fecha` parses back to the day it was formatted from |
| Dates.CutoffBoundary | packages/frontend/src/pages/AdminUsers.tsx:46-48 | a report dated on the cutoff day counts as before the cutoff exactly when `now` is past midnight |
| Dates.AfterCutoffDayIsNotBefore | packages/frontend/src/pages/AdminUsers.tsx:48 | a report dated after the cutoff day is never before the cutoff |
| Seqs.FilterMembers | packages/frontend/src/pages/AdminReports.tsx:35 | `filter` keeps exactly the elements that pass |
| Seqs.FilterIsSubsequence | packages/frontend/src/pages/AdminReports.tsx:35 | `filter` keeps the original order |
| Seqs.FilterIdempotent | packages/frontend/src/pages/AdminReports.tsx:35 | filtering twice with the same test changes nothing |
| Seqs.Take | packages/frontend/src/pages/AdminDashboard.tsx:183 | `slice(0, n)`: the first `n` entries, or all of them |
| StableSort.SortDesc | packages/frontend/src/pages/AdminDashboard.tsx:64 | a descending sort: the same entries, in non-increasing key order |
| StableSort.SortDescStable | packages/frontend/src/pages/AdminDashboard.tsx:64 | entries with equal keys keep their relative order |
| Text.Lower | packages/frontend/src/pages/AdminUsers.tsx:80 | lowers each ASCII capital and keeps every other character |
| Text.LowerIdempotent | packages/frontend/src/pages/AdminUsers.tsx:80 | lowering twice is lowering once |

## Left out

- Network and I/O: the admin users page fetches its users and reports from the backend
  service (`apiService`), and the dashboard fetches admins, notifications and users the same
  way. The dashboard computes its statistics from `churchUsers` and `churchReports` in the
  browser's storage instead. Here all of these are lists passed in. The service client is not
  part of this model.
- Rendering and effects are not modelled: React rendering, toasts, navigation calls, the
  loading spinner's text and Express routing. The route table's catch-all page is treated as
  public.
- The sweep's daily timer, and the clean-up of that timer, are not modelled. One tick is
  `Storage.LocalStorage.SweepWithSetting`.
- Storage.DataHook: the data source's `fetch` on mount is asynchronous and is not modelled. Its
  `save` is recorded as a list of saved values, and its errors are not modelled.
- JSON text is not parsed. A stored value is modelled by what it parses to (`Storage.Entry`). A
  parse failure in a page handler, caught by its `try`, is the `StorageError` outcome. Each
  page's list reading is modelled only where it decides the outcome.
- Auth.AuthProvider.LoadSession: any session text that parses but is not a user object leaves
  the user unset. In the source, such a value would become the user as it is.
- Dates: time zones are not modelled, and neither are strings other than `YYYY-MM-DD`.
  `ParseIsoDate` accepts any day from 1 to 31 in every month. `setMonth`'s rollover, when
  the day does not exist in the target month, is not modelled.
- Dates.TwoMonthsBefore: the cutoff keeps the day of the month, even where JavaScript would
  roll over into the next month.
- `createdAt` is a number of milliseconds instead of an ISO string. Record and user ids are
  strings on the client.
- AdminUsersPage.DetailHistory: an unparsable date sorts with key 0. In the source its
  comparison yields NaN, which leaves the order to the engine's sort.
- The sorts are modelled as a stable sort on a copy. The source sorts the page's arrays in
  place, and that update is not captured.
- Amounts are exact reals. Floating-point rounding, `toFixed(2)`, and `parseFloat` details
  other than "a number or nothing" are not modelled.
- Text.Lower: lowercasing covers ASCII letters only. The route matcher's case-insensitive
  comparison against the table's ASCII paths is exact with it.
- Routes.Visit: the router's percent-decoding of the location is not modelled.
- LoginPage.LoginSchema, RegisterPage.RegisterSchema, AdminLoginPage.AdminLoginSchema: a
  length is a count of characters. zod's `.min(n)` counts UTF-16 code
  units, so a text with characters outside the Basic Multilingual Plane passes it with fewer
  characters than the model asks for.
- RecordStore.ParseInt: the value of a digit run is exact. `parseInt` rounds a run above 2^53
  to the nearest double, so a very long id parameter can match a different record in the
  source.
- Storage.ReadUsers: a stored JSON array whose elements are not users, such as `[{"a":1}]`, is
  an error here. The source reads it without error: the login finds nobody, the registration
  appends to it.
- Storage.ReadReports: a stored JSON array whose elements are not reports is an error here.
  The source appends to it and filters it.
- Storage.AsNumber: for JSON values other than user and report lists, user objects, stamped
  objects and numbers (`null`, booleans, strings, other objects and arrays), the entry carries
  the number JavaScript makes of it; that number is not computed from the JSON text. A
  timestamp's number and truthiness are carried the same way. Infinite values are not
  represented.
- `IsEmail` is a simplified address check: text, then `@`, then text with a dot.
- Tally: object keys that look like array indices, which JavaScript orders first, are kept in
  insertion order like every other key.
- `useDataPersistence`'s setter, and `getCargoColor` and `getTypeColor` (display colours), are
  not modelled.
- The tithe calculator's navigation to the report form with a preloaded amount is not modelled.
- TitheCalculatorPage.TitheCalculator.HandleAmountChange: the index must be within the list,
  because the inputs only exist for existing entries. Assigning past the end is not modelled.
