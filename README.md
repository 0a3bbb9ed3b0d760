# LMS-RITES leave management, modelled in Dafny

LMS-RITES is a leave-management application. An employee files one or more
leave requests. A Site Incharge, HR and an SBU Head decide on each request
in turn. An administrator creates accounts. An Express server keeps its own
copy of users and requests and mirrors each employee's leave in a
spreadsheet ledger: a `Summary` sheet plus one sheet per employee. The
browser pages keep their own users and requests in `localStorage`, and the
request workflow shown on screen runs entirely on that browser store.

The model covers:

- **Server** (`LeaveServer`): the key-value store the server handlers
  update. Submission appends a fresh request. Approval records one
  approver's decision on the first request with the id and recomputes its
  final status. User creation refuses a taken id and fills in default
  balances and profile fields. Seeding adds the three default accounts once.
- **Ledger** (`Ledger`): the spreadsheet workbook. It holds sheet-name
  sanitising, creating employee sheets, appending leave records, the
  summary arithmetic (taken, remaining), status updates, renames and the
  summary queries. `ExcelManager` is a class whose methods update the
  workbook in place and are proved equal to the pure workbook functions.
- **Browser pages**, each a class over the shared `Browser.Storage`
  (`users`, `leaveRequests`, `currentUser`):
  - the employee dashboard: the leave form, the day counts, submission and
    history;
  - the Site Incharge and SBU Head dashboards: pending queues, decisions and
    the SBU Head's CSV export;
  - the three-step password reset;
  - the administrator's user form and status colours;
  - sign-up.
- **Pure page logic**: login against the built-in employee table and the
  stored accounts (`LoginView`), and the sidebar menu (`SidebarMenu`).
- **Application shell** (`AppShell`): administrator seeding, the session,
  the route guard, the role-to-dashboard map and what gets rendered.

The server's submit and approve handlers call the ledger with two arguments
(`addLeaveRecord(name, request)`, `updateLeaveStatus(request.name,
request)`), but the ledger methods take three. The request object therefore
arrives as the employee's name, and sanitising it throws before the
workbook is touched. The model keeps this behaviour as written:

- the store is updated;
- the workbook is unchanged;
- the response is a server error.

The ledger operations are still modelled and proved in their own right,
because `createUser` does call the ledger correctly.

The files do not share one status vocabulary, and the model keeps each
file's own strings:

- the server writes `Approved (Final)` or `Rejected` as the final status;
- the Site Incharge dashboard writes `Pending at HR` or
  `Rejected by Site Incharge`;
- the SBU Head dashboard writes `Approved (Final)` or `Rejected by SBU Head`;
- the server's approver roles are `siteincharge`, `hr` and `sbuhead`, while
  stored users carry `Site Incharge`, `HR` and `SBU Head`.

## Model

| member | source | states |
|---|---|---|
| Records.NewRequest | server/server.js:213-228 | a new request has every stage `Pending`, final status `Pending at Site Incharge`, empty remarks and the given id, employee and day count |
| Records.UpdateFirst | src/components/SiteInchargeDashboard.jsx:19-41 | only the first request with the id is changed, and every other request is untouched; an unknown id changes nothing |
| Records.QueueAfterUpdate | src/components/SiteInchargeDashboard.jsx:14-41 | when the change takes a request out of a filtered queue, the queue loses exactly that request and the others keep their order |
| Records.AppendKeepsUniqueIds | server/server.js:288-310 | appending a user whose id is not yet registered keeps ids unique and registers the id |
| Records.FormUser | src/components/AdminDashboard.jsx:94-104 | the stored user carries the form's id, password and role, and none of the server-only profile fields |
| Records.SubmitForm | src/components/AdminDashboard.jsx:71-128 | differing passwords are refused; otherwise a registered id is refused; otherwise the new user is appended |
| Records.SubmitFormKeepsIdsUnique | src/components/AdminDashboard.jsx:83-107 | an accepted form keeps ids unique, and submitting the same form again is refused as a taken id |
| LeaveServer.Decide | server/server.js:256-274 | only the stage the approver role names takes the status; the final status is `Approved (Final)` iff all stages are approved (or it already was and none is rejected); any rejection makes it `Rejected`; the remarks are overwritten; nothing else changes |
| LeaveServer.DecideIdempotent | server/server.js:256-274 | recording the same decision twice equals recording it once |
| LeaveServer.UnknownRoleDecidesNothing | server/server.js:259-265 | an approver role other than the three leaves every stage as it was |
| LeaveServer.ThreeApprovalsInAnyOrder | server/server.js:259-272 | approvals from the three distinct approver roles, in any order, make the request `Approved (Final)` |
| LeaveServer.RejectionCanBeOverturned | server/server.js:259-272 | a rejected request whose rejecting stage is approved, with the other two already approved, becomes `Approved (Final)` |
| LeaveServer.TextOrBlank | server/server.js:304-306 | a missing profile field is stored as the empty string, and a present non-empty one is kept |
| LeaveServer.ServerUser | server/server.js:294-307 | the stored user keeps the body's id, role, password and name (empty when the body has none); falsy balances become 12 and 0; profile fields are always present |
| LeaveServer.Seed | server/server.js:155-164 | seeding keeps the users before as a prefix and appends at most one account per default, each one of the defaults |
| LeaveServer.SeedOne | server/server.js:155-164 | a default is appended exactly when its id is not yet registered, and afterwards the id is registered |
| LeaveServer.SeedKeeps | server/server.js:155-164 | seeding only appends, so a registered id stays registered |
| LeaveServer.SeedRegistersAll | server/server.js:155-164 | after seeding every default's id is registered |
| LeaveServer.SeedRegisteredIsIdentity | server/server.js:155-164 | seeding when all defaults are registered changes nothing |
| LeaveServer.SeedIdempotent | server/server.js:109-165 | seeding twice equals seeding once |
| LeaveServer.SeedKeepsUniqueIds | server/server.js:155-164 | seeding keeps employee ids unique |
| LeaveServer.Server.constructor | server/server.js:6-14 | the server starts from the given store and a well-formed ledger |
| LeaveServer.Server.Submit | server/server.js:210-239 | the new request is appended to the stored requests; users and the workbook are unchanged; the answer is a server error (the ledger call throws) |
| LeaveServer.Server.Approve | server/server.js:246-283 | an unknown id answers not found and changes nothing; otherwise the first request with the id takes the decision, the workbook is unchanged and the answer is a server error |
| LeaveServer.Server.CreateUser | server/server.js:285-316 | a taken id is refused and nothing changes; otherwise the user is appended; a body without a name then answers a server error with the workbook unchanged (the ledger call throws); with a name the employee's sheet is created and the created user is returned |
| LeaveServer.Server.InsertDefaultUsers | server/server.js:109-165 | the users afterwards are the defaults seeded in order into the users before |
| LeaveServer.Server.InsertUsers | server/server.js:157-162 | the loop pushes each default whose id is not yet registered, in order, so the users afterwards are `Seed` of the users before; requests and the ledger are unchanged |
| Ledger.Sanitize | server/excelManager.js:38 | the sheet name has the input's length capped at 31, only letters, digits and `_`, and keeps every letter and digit where it stood |
| Ledger.ReplaceOthers | server/excelManager.js:38 | the result has the input's length, keeps every letter and digit, and has `_` wherever the input has any other character |
| Ledger.SanitizeFixesSheetNames | server/excelManager.js:38 | a name that already is a valid sheet name is left unchanged |
| Ledger.SanitizeIdempotent | server/excelManager.js:38 | sanitising twice equals sanitising once |
| Ledger.Recharged | server/excelManager.js:93-100 | taken grows by the delta, remaining is total minus taken, and id, name and total are kept |
| Ledger.Charge | server/excelManager.js:93-101 | only the employee's first summary row is recharged by the delta and every other row is untouched; with no row for the employee nothing changes; the summary keeps its length and stays balanced (remaining is total minus taken on every row) |
| Ledger.ChargeNothing | server/excelManager.js:140-159 | on a balanced summary, charging 0 days changes nothing |
| Ledger.ChargeThenRefund | server/excelManager.js:140-162 | on a balanced summary, charging a delta and then its opposite restores the summary |
| Ledger.CreateSheet | server/excelManager.js:37-63 | an existing sheet leaves the workbook unchanged; otherwise an empty sheet is added at the end, a summary row with 20 days is appended and other sheets are untouched; the workbook stays well formed and balanced |
| Ledger.AddRecord | server/excelManager.js:65-108 | the workbook stays well formed and a balanced summary stays balanced |
| Ledger.AddRecordEffect | server/excelManager.js:65-108 | the employee's sheet (created first when missing) gains the record at its end, and the summary is charged the request's days exactly when it is `Approved` |
| Ledger.TakenDelta | server/excelManager.js:140-162 | the taken count moves by minus the days when leaving `Approved`, by the days when entering it, and otherwise not at all |
| Ledger.MarkRecord | server/excelManager.js:124-135 | only the first record with the request's type and dates takes its status and remarks, and every other record is untouched; with no such record nothing changes; the list keeps its length and balance |
| Ledger.UpdateStatus | server/excelManager.js:110-165 | the sheet list is unchanged, an unknown employee sheet changes nothing, and the workbook stays well formed and balanced |
| Ledger.UpdateStatusFrame | server/excelManager.js:110-165 | only the employee's sheet and the summary can change; every other sheet is kept |
| Ledger.UpdateStatusWithoutCharge | server/excelManager.js:117-159 | with no matching record the employee's sheet is kept and the summary is charged 0 days (untouched when the new status is blank); when the first match already has the new status only its remarks change and the summary is kept |
| Ledger.UpdateStatusNoRecord | server/excelManager.js:117-159 | on a balanced workbook, a request with no matching record on the employee's sheet leaves the whole workbook unchanged |
| Ledger.UpdateStatusCharges | server/excelManager.js:110-165 | when the request's first record exists and its status changes, the record list is marked and the summary is charged the change of `taken` the old and new status imply |
| Ledger.ApproveStep | server/excelManager.js:124-159 | approving a record that was not approved charges its days; afterwards the same record is still the first match, reads `Approved` and keeps its days |
| Ledger.RevokeStep | server/excelManager.js:140-159 | moving an approved record to any other status refunds its days, so a summary charged those days returns to what it was |
| Ledger.ApproveThenRevokeRestoresSummary | server/excelManager.js:110-165 | approving a recorded request that was not approved and then moving it to any other status gives back the summary exactly as it was before |
| Ledger.RenameInList | server/excelManager.js:188-196 | renaming the one occurrence of a sheet name to a fresh name keeps names distinct and swaps exactly that name |
| Ledger.RenameSheet | server/excelManager.js:188-196 | the sheet list keeps its length with the old name replaced by the new one in place; the new sheet holds the old sheet's rows; the summary and all other sheets are unchanged |
| Ledger.RenameSummary | server/excelManager.js:179-184 | only the employee's first summary row takes the new name and every other row is untouched; with no row for the employee nothing changes; the summary keeps its length and balance |
| Ledger.UpdateProfile | server/excelManager.js:171-199 | the summary row takes the new name; the employee's sheet moves to the new name at the same position; all other sheets are unchanged and the workbook stays well formed |
| Ledger.LeaveSummary | server/excelManager.js:201-218 | a summary row is returned iff the employee has one, and it is the employee's first row in the summary |
| Ledger.ProfileUpdateRenamesSummary | server/excelManager.js:171-218 | after a profile update the employee's summary is the old one with the new name |
| Ledger.AddRecordCharges | server/excelManager.js:65-108 | recording a request adds its days to the employee's taken count exactly when it is `Approved`, with the total unchanged |
| Ledger.FirstRecordOpensAccount | server/excelManager.js:65-108 | the first record of a new employee creates their sheet holding just that record and a 20-day summary row charged with the request if it is approved |
| Ledger.FirstRecordEffect | server/excelManager.js:65-108 | for an employee without a sheet, the new sheet holds only the record and the summary gains a 20-day row, charged when the request is approved |
| Ledger.OpenedSummary | server/excelManager.js:201-214 | the summary of an employee whose row was just appended is that row, with taken and remaining matching the charge |
| Ledger.OpenedAccount | server/excelManager.js:52-59 | a row appended for an employee without one is their first row, with 20 total, 0 taken and 20 remaining, and charging it keeps it first |
| Ledger.ExcelManager.constructor | server/excelManager.js:6-35 | a fresh ledger holds only an empty summary sheet |
| Ledger.ExcelManager.CreateEmployeeSheet | server/excelManager.js:37-63 | the workbook becomes `CreateSheet` of the old one |
| Ledger.ExcelManager.AddLeaveRecord | server/excelManager.js:65-108 | the workbook becomes `AddRecord` of the old one |
| Ledger.ExcelManager.UpdateLeaveStatus | server/excelManager.js:110-165 | the workbook becomes `UpdateStatus` of the old one |
| Ledger.ExcelManager.UpdateEmployeeProfile | server/excelManager.js:171-199 | the workbook becomes `UpdateProfile` of the old one |
| Ledger.ExcelManager.GetLeaveSummary | server/excelManager.js:201-218 | returns the employee's first summary row, or none |
| Ledger.AllStatusesAnswerSummaries | server/excelManager.js:201-231 | the list of all summaries holds a row for the employee iff `getLeaveSummary` finds one, and the row found is the employee's first in that list |
| Ledger.MarkFirst | server/excelManager.js:124-135 | the first record of the request takes the new status and remarks, and its previous status and days are reported (blank and 0 when none matches) |
| Ledger.ChargeFirst | server/excelManager.js:142-159 | the loop's result equals charging the employee's first summary row |
| EmployeeView.CalculateDays | src/components/EmployeeDashboard.jsx:19-26 | 0 iff a date is missing, otherwise the absolute difference plus one |
| EmployeeView.CalculateDaysCountsCoveredDays | src/components/EmployeeDashboard.jsx:19-26 | the count equals the number of calendar days the range covers, is symmetric in its ends, and is 1 for a single day |
| EmployeeView.ChangeEntry | src/components/EmployeeDashboard.jsx:28-37 | the named field is set; a date change recomputes the day count from the dates and a type change keeps it |
| EmployeeView.DropIndex | src/components/EmployeeDashboard.jsx:43-45 | the entry at the index is removed and the others keep their order; an out-of-range index keeps all |
| EmployeeView.DropLastAdded | src/components/EmployeeDashboard.jsx:39-45 | removing the entry just added gives back the form before |
| EmployeeView.Submission | src/components/EmployeeDashboard.jsx:52-67 | the request is unreviewed and carries the user's id and the entry's type, dates and days |
| EmployeeView.Submissions | src/components/EmployeeDashboard.jsx:51-70 | one request per entry, in form order |
| EmployeeView.SubmitExtendsHistory | src/components/EmployeeDashboard.jsx:47-82 | the employee's history after submission is the history before followed by the new requests |
| EmployeeView.EmployeeDashboard.constructor | src/components/EmployeeDashboard.jsx:8-17 | one default entry, and the history is the stored requests of this employee |
| EmployeeView.EmployeeDashboard.HandleDateChange | src/components/EmployeeDashboard.jsx:28-37 | only the indexed entry changes, as `ChangeEntry` says, and every entry's days stay consistent with its dates |
| EmployeeView.EmployeeDashboard.AddLeaveType | src/components/EmployeeDashboard.jsx:39-41 | a default entry is appended |
| EmployeeView.EmployeeDashboard.RemoveLeaveType | src/components/EmployeeDashboard.jsx:43-45 | the entry at the index is dropped |
| EmployeeView.EmployeeDashboard.HandleSubmit | src/components/EmployeeDashboard.jsx:47-82 | the store gains one request per entry after the old ones; the form resets to one default entry; the history is the employee's requests |
| SiteInchargeView.PendingQueue | src/components/SiteInchargeDashboard.jsx:14-17 | `loadRequests`: the queue holds exactly the stored requests whose Site Incharge stage is `Pending` |
| SiteInchargeView.SiteDecide | src/components/SiteInchargeDashboard.jsx:19-41 | the stage takes the action; the final status becomes `Pending at HR` on approval and `Rejected by Site Incharge` otherwise; nothing else changes |
| SiteInchargeView.ActingLeavesQueue | src/components/SiteInchargeDashboard.jsx:19-41 | acting with anything but `Pending` removes that request, and only it, from the queue |
| SiteInchargeView.SiteInchargeDashboard.constructor | src/components/SiteInchargeDashboard.jsx:10-17 | mounting loads the queue |
| SiteInchargeView.SiteInchargeDashboard.LoadRequests | src/components/SiteInchargeDashboard.jsx:14-17 | the queue is reloaded from the store |
| SiteInchargeView.SiteInchargeDashboard.HandleApproval | src/components/SiteInchargeDashboard.jsx:19-41 | an unknown id changes nothing; otherwise the first request with the id takes the decision and the queue is reloaded |
| SbuHeadView.PendingQueue | src/components/SBUHeadDashboard.jsx:14-17 | `loadRequests`: the queue holds exactly the requests HR approved and the SBU Head has not decided |
| SbuHeadView.SbuDecide | src/components/SBUHeadDashboard.jsx:19-41 | the stage takes the action; the final status becomes `Approved (Final)` on approval and `Rejected by SBU Head` otherwise; nothing else changes |
| SbuHeadView.ActingLeavesQueue | src/components/SBUHeadDashboard.jsx:19-41 | acting with anything but `Pending` removes that request, and only it, from the queue |
| SbuHeadView.SplitJoin | src/components/SBUHeadDashboard.jsx:49-57 | a line joined without quoting reads back as the same fields when no field contains the separator |
| SbuHeadView.UserFields | src/components/SBUHeadDashboard.jsx:50 | a user line has six fields |
| SbuHeadView.RequestFields | src/components/SBUHeadDashboard.jsx:56 | a request line has twelve fields |
| SbuHeadView.HeadingsCount | src/components/SBUHeadDashboard.jsx:47-54 | the users heading has 2 newlines and 5 commas; the requests heading has 2 newlines and 11 commas |
| SbuHeadView.CsvCount | src/components/SBUHeadDashboard.jsx:47-57 | with no comma or newline inside a field, the export has 5 commas and 1 newline per user, 11 commas and 1 newline per request, plus the headings and the `\n\n` separating the two sections |
| SbuHeadView.ExportCommas | src/components/SBUHeadDashboard.jsx:43-57 | with no comma inside a field, the downloaded file holds 16 commas plus 5 per user and 11 per request |
| SbuHeadView.ExportNewlines | src/components/SBUHeadDashboard.jsx:43-57 | with no newline inside a field, the downloaded file holds 6 newlines plus one per user and one per request |
| SbuHeadView.WriteLines | src/components/SBUHeadDashboard.jsx:49-57 | the loop writes one CSV line per element, in order |
| SbuHeadView.SbuHeadDashboard.constructor | src/components/SBUHeadDashboard.jsx:10-17 | mounting loads the queue |
| SbuHeadView.SbuHeadDashboard.LoadRequests | src/components/SBUHeadDashboard.jsx:14-17 | the queue is reloaded from the store |
| SbuHeadView.SbuHeadDashboard.HandleApproval | src/components/SBUHeadDashboard.jsx:19-41 | an unknown id changes nothing; otherwise the first request with the id takes the decision and the queue is reloaded |
| SbuHeadView.SbuHeadDashboard.ExportToExcel | src/components/SBUHeadDashboard.jsx:43-70 | the text is the users section, two blank lines (the separator `\n\n` after the section's final newline) and the requests section over the stored users and requests |
| PasswordReset.AnswerAccepted | src/components/ForgotPassword.jsx:32-52 | accepted iff the answer has a non-blank character, the account has a stored answer, and the two are equal ignoring case |
| PasswordReset.AnswerIgnoresCase | src/components/ForgotPassword.jsx:42 | typing the answer in lower case makes no difference |
| PasswordReset.ResetPassword | src/components/ForgotPassword.jsx:54-75 | none iff no account has the id; otherwise only the first such account's password changes |
| PasswordReset.ResetKeepsAccount | src/components/ForgotPassword.jsx:54-75 | after a reset the account is still the first with its id, has the new password, and is otherwise unchanged |
| PasswordReset.ForgotPasswordPage.constructor | src/components/ForgotPassword.jsx:8-13 | the page starts at step 1 with empty inputs and no account |
| PasswordReset.ForgotPasswordPage.SetEmpId | src/components/ForgotPassword.jsx:121-140 | in step 1 only the id input changes |
| PasswordReset.ForgotPasswordPage.SetSecurityAnswer | src/components/ForgotPassword.jsx:142-167 | in step 2 only the answer input changes |
| PasswordReset.ForgotPasswordPage.SetPasswords | src/components/ForgotPassword.jsx:162-199 | in step 3 only the two password inputs change |
| PasswordReset.ForgotPasswordPage.HandleNextStep1 | src/components/ForgotPassword.jsx:15-30 | step 2 with the first account of the id iff some account has it; otherwise nothing changes |
| PasswordReset.ForgotPasswordPage.HandleVerifyAnswer | src/components/ForgotPassword.jsx:32-52 | step 3 iff the answer is accepted, otherwise still step 2 |
| PasswordReset.ForgotPasswordPage.HandleResetPassword | src/components/ForgotPassword.jsx:54-75 | differing passwords stay and change nothing; a missing account throws; otherwise the password is reset and the page goes to login |
| PasswordReset.ForgotPasswordPage.HandleBack | src/components/ForgotPassword.jsx:77-89 | step 1 goes to login; otherwise one step back, clearing the inputs of the step left |
| AdminView.StatusColor | src/components/AdminDashboard.jsx:38-42 | green iff the status mentions `Approved`; otherwise red iff it mentions `Rejected`; otherwise yellow |
| AdminView.ApprovalTones | src/components/AdminDashboard.jsx:38-42 | `Approved` and `Approved (Final)` are shown green |
| AdminView.RejectionTones | src/components/AdminDashboard.jsx:38-42 | every rejection status the handlers write is shown red |
| AdminView.PendingTones | src/components/AdminDashboard.jsx:38-42 | every pending status the handlers write is shown yellow |
| AdminView.AdminDashboard.constructor | src/components/AdminDashboard.jsx:8-36 | mounting loads all requests and users and a default form |
| Records.WithFieldLastWins | src/components/AdminDashboard.jsx:67-69 | typing into the same field twice leaves the last text |
| Records.WithFieldOnlyNamed | src/components/Signup.jsx:29-31 | an input event sets the named form field to the typed text and changes no other field; a name that is no field changes nothing |
| AdminView.AdminDashboard.HandleChange | src/components/AdminDashboard.jsx:67-69 | the named form field takes the typed text |
| AdminView.AdminDashboard.HandleSubmit | src/components/AdminDashboard.jsx:71-128 | an accepted form is stored, the list reloaded and the form reset; a refused one changes nothing |
| SignupView.SignupPage.constructor | src/components/Signup.jsx:16-27 | the form starts with the defaults |
| SignupView.SignupPage.HandleChange | src/components/Signup.jsx:29-31 | the named form field takes the typed text and the balances keep their defaults |
| SignupView.SignupPage.HandleSubmit | src/components/Signup.jsx:33-77 | an accepted form is stored and the page goes to login; a refused one stays and stores nothing |
| LoginView.EmployeeUser | src/components/Login.jsx:50-57 | a table employee signs in with role `Employee`, no password and the entry's balances |
| LoginView.SignIn | src/components/Login.jsx:43-77 | `Employee` succeeds iff the number is in the table, using that entry; any other role succeeds iff a stored account has that id, password and role, and the user produced is the first such account in the list; on failure no user is produced |
| LoginView.EmployeeSignInIgnoresAccounts | src/components/Login.jsx:47-58 | an employee's sign-in depends neither on the password typed nor on the stored accounts |
| LoginView.EmployeeTableNumbersDistinct | src/components/Login.jsx:7-34 | no two table entries share an employee number |
| LoginView.ListedEmployeeSignsIn | src/components/Login.jsx:47-58 | every listed employee signs in as the user built from their own entry |
| LoginView.SignUpThenSignIn | src/components/Login.jsx:60-61 | an account created through a form with a role other than `Employee` signs in with its id, password and role |
| LoginView.ResetThenSignIn | src/components/Login.jsx:60-61 | after a password reset the account signs in with the new password under its own role |
| SidebarMenu.RoleItems | src/components/Sidebar.jsx:57-81 | a role outside `admin`, `employee`, `siteincharge`, `hr` and `sbuhead` has no items of its own, and every item of a role is visible to that role only |
| SidebarMenu.BaseItemsShown | src/components/Sidebar.jsx:51-55 | every role sees Dashboard and Leave Requests, and Analytics only for `admin`, `hr` and `sbuhead` |
| SidebarMenu.RoleItemsHaveNoAnalytics | src/components/Sidebar.jsx:57-79 | no role's own items include Analytics |
| SidebarMenu.MenuItems | src/components/Sidebar.jsx:50-83 | Dashboard and Leave Requests come first; Analytics appears iff the lower-cased role is `admin`, `hr` or `sbuhead`; the role's own items come last, and an unknown role has none |
| SidebarMenu.SbuHeadMenu | src/components/Sidebar.jsx:81-82 | the stored role `SBU Head` gets only the two general items |
| SidebarMenu.SiteInchargeMenu | src/components/Sidebar.jsx:81-82 | the stored role `Site Incharge` gets only the two general items |
| SidebarMenu.GeneralItemsOnly | src/components/Sidebar.jsx:81-82 | a role with no items of its own and outside Analytics' list sees only the two general items |
| SidebarMenu.HrMenu | src/components/Sidebar.jsx:50-83 | `HR` sees the general items, Analytics and its own items |
| SidebarMenu.AdminMenu | src/components/Sidebar.jsx:50-83 | `Admin` sees the general items, Analytics and its own items |
| SidebarMenu.EmployeeMenu | src/components/Sidebar.jsx:50-83 | `Employee` sees the general items and its own items, without Analytics |
| AppShell.SeedAdmin | src/App.jsx:48-64 | the administrator account is appended exactly when no user has id `121212` |
| AppShell.SeedAdminIdempotent | src/App.jsx:48-64 | seeding registers the administrator, keeps the existing users as a prefix, adds at most one account, keeps ids unique and is idempotent |
| AppShell.RoleView | src/App.jsx:96-107 | every role maps to a dashboard view, and any role outside the four staff roles maps to `employee` |
| AppShell.RoleViewsDistinct | src/App.jsx:96-105 | the five roles the login page offers map to five different dashboards |
| AppShell.Guard | src/App.jsx:85-90 | a dashboard view without a user becomes `login`, every other view is kept, and the result is a dashboard view only with a user |
| AppShell.GuardedRender | src/App.jsx:85-90 | after the guard a dashboard is rendered iff the view is a dashboard view and a user is signed in; a dashboard view without a user renders the login page; guarding twice equals guarding once |
| AppShell.RenderView | src/App.jsx:120-165 | a dashboard is shown iff the view is a dashboard view and there is a user; `login` and `forgot` show their pages |
| AppShell.SignupIsNotRendered | src/App.jsx:120-165 | the `signup` view falls through to the landing page |
| AppShell.SignInAndOutScreens | src/App.jsx:92-123 | signing in shows the user's dashboard, and signing out shows the login page |
| AppShell.App.constructor | src/App.jsx:41-45 | the shell starts on `login` with no user and the `dashboard` section |
| AppShell.App.OnMount | src/App.jsx:47-74 | the administrator is seeded, a stored session's user is taken, and the view stays the same |
| AppShell.App.RouteGuard | src/App.jsx:85-90 | the view becomes the guarded view |
| AppShell.App.Navigate | src/App.jsx:120-165 | only the view changes |
| AppShell.App.ChangeSection | src/App.jsx:41-45 | only the active section changes |
| AppShell.App.HandleLogin | src/App.jsx:92-108 | the user is stored in the session, the view is the role's dashboard and the section is `dashboard` |
| AppShell.App.HandleLogout | src/App.jsx:110-118 | the user is cleared, the view is `login`, and `currentUser` and `leaveRequests` are removed from storage |
| AppShell.App.Render | src/App.jsx:120-165 | the screen is the one `RenderView` gives |
| Common.LowerCase | src/components/ForgotPassword.jsx:42 | the lower-cased text has the input's length and each character lower-cased in place |
| Common.TrimEmptyIff | src/components/ForgotPassword.jsx:33 | the trimmed text is empty iff every character is white space |
| Common.FirstIndex | src/components/ForgotPassword.jsx:65 | the result is -1 iff no element passes, and otherwise the position of the first element that passes |
| Common.FindIndex | server/server.js:250 | the search loop returns the first position that passes, or -1 |
| Common.FilterMembers | src/components/SiteInchargeDashboard.jsx:16 | every element kept passes and comes from the list, and every element of the list that passes is kept |

## Left out

- Rendering, animation, toasts, icons, the scroll and sidebar-toggle state,
  `window.history.replaceState`, and the presentational components
  (ProgressChart, HeroImage, InfoCard, CallToAction, Landing,
  WelcomeMessage, AdminDashboardNew): they produce no state the workflow
  reads.
- The HR dashboard that the `hr` view renders (src/App.jsx:140-141):
  src/components/HRDashboard.jsx is not part of this model, so the HR stage
  is recorded only through the server's approve handler. The model shows
  the `hr` view as a dashboard screen without its contents.
- The Express plumbing, CORS, the read-only `GET` routes, the admin login
  route, `server/query.js`, `server/remove_employees.js`, `src/main.jsx` and
  `src/lib/googleSheets.js`: they are not part of the leave bookkeeping.
- The spreadsheet file itself: reading and writing the `.xlsx` file, the
  header rows (the model keeps only the rows below them) and the library's
  automatic naming of blank sheet names.
- Generated leave ids, the clock and `toLocaleDateString` are inputs.
  Rendering numbers and dates into CSV text is a host function passed in.
  The download itself is not modelled.
- HTML `required` and input-type validation on the forms: the handlers are
  modelled on whatever text reaches them.
- Lower-casing and trimming cover ASCII only. Lengths count characters, not
  UTF-16 code units.
- Role strings that are names of `Object.prototype` properties
  (`constructor`, `toString` and the like) look up inherited members in
  `roleMap` and `roleSpecificItems`. The model treats them as unknown roles.
- The employee dashboard repeats the administrator's `getStatusColor` with
  other shades. It is modelled once, as `AdminView.StatusColor`.
- Ledger.CreateSheet requires a non-empty employee name, because a blank
  sheet name goes through the library's automatic naming.
- Ledger.AddRecord requires a non-empty employee name, for the same reason.
- Ledger.ExcelManager.CreateEmployeeSheet requires a non-empty employee
  name, for the same reason.
- Ledger.ExcelManager.AddLeaveRecord requires a non-empty employee name,
  for the same reason.
- LeaveServer.Server.CreateUser requires that a name, when the body has
  one, is not empty, for the same reason.
- LeaveServer.ServerUser: a body without a name stores the empty name,
  where the source stores a user with no name field.
- Ledger.UpdateProfile requires that the employee's sanitised old name is
  not `Summary` and that the new name is not another existing sheet. Without
  this the source leaves the workbook without a summary sheet or with two
  sheets of one name, and what the library then does is not modelled.
- Ledger.ExcelManager.UpdateEmployeeProfile has the same precondition as
  Ledger.UpdateProfile.
- SignupView.SignupPage.HandleChange requires that the field is not a
  balance, because the page has no balance inputs.
- The server's ledger calls from submit and approve throw, as described
  above. The model records the thrown call as a server error and states no
  ledger effect for those handlers.
