# CompanyFlow console: client-side decisions, verified

CompanyFlow's web console is a Next.js client for an HR backend. It does not
keep the leave ledger or run the approval state machine: it calls the
backend and renders what comes back. What it does decide on its own is
modelled here:

- how backend records are normalised;
- how many days a leave request asks for;
- how an approval-workflow step list is parsed;
- which approve, reject and withdraw actions are offered, and what a confirmed action sends;
- how pages are clamped and reset;
- the stat cards and memo order of the employee dashboard;
- the displayed available balance;
- role canonicalisation and the route guards;
- the header's initials, name fallback and home link;
- the in-memory permission editor;
- the company sign-up validators;
- the date-range text;
- what a successful login writes to browser storage.

Dates are integer day numbers. Storage, the window, the query string and
the clock are parameters. Date parsing and formatting, `JSON.parse` and
zod's e-mail check are parameter functions. Strings are `seq<char>` with
ASCII whitespace and letter case. JavaScript's `undefined`/`null`/value
triple is `Js.Nullable`; a value that may be missing is `Js.Option`.

Modules, one per source file:

- `Api`: lib/api.ts.
- `LeaveRequestForm`: components/leave-request-form.tsx.
- `ApprovalWorkflows`: components/approval-workflows.tsx.
- `Approvals`: components/approvals.tsx.
- `EmployeeDashboard`: components/employee-dashboard.tsx.
- `LeaveBalanceCard`: components/leave-balance.tsx.
- `Roles`: the `normalizeRole` helper, which app/dashboard/page.tsx and app/employee-dashboard/page.tsx both define, with the same text.
- `AdminDashboardPage`: app/dashboard/page.tsx.
- `EmployeeDashboardPage`: app/employee-dashboard/page.tsx.
- `AppHeader`: components/app-header.tsx.
- `Permissions`: components/permissions.tsx.
- `CompanySchema`: lib/schema.ts.
- `Landing`: components/landing.tsx.
- `DateFormat`: lib/date.ts.
- `Session`: lib/hooks.ts.
- `Text`: the string built-ins the code relies on (trim, case mapping, digits).
- `Js`: `??`, `||` on strings and `Number()`.
- `Records`: shapes the components read: memos as the backend sends them, and leave balances as `normalizeLeaveBalance` builds them.

Three behaviours of the code worth knowing, all modelled as written:

- The displayed available balance is `total - used - pending`. Carried-forward days are not part of it.
- The day count takes the absolute difference of the dates. A range whose end comes before its start is therefore counted, not rejected.
- The header links employees to `/employee/dashboard`, while the employee dashboard's page is `app/employee-dashboard`. The path is kept as written.

Stateful parts are classes:

- the leave form (`LeaveRequestForm.FormState`);
- the workflow create form;
- the approvals page;
- the employee dashboard's memo composer;
- the admin dashboard page;
- the header;
- the permission editor and its add dialog;
- the browser's storage (`Session.Browser`).

Pure parts are functions with lemmas.

## Model

| member | source | states |
|---|---|---|
| Api.GetString | lib/api.ts:42 | null/undefined become "", any string is returned unchanged |
| Api.GetNullableString | lib/api.ts:44-45 | defined exactly when the input is a value, and then equal to it |
| Api.GetNullableNumber | lib/api.ts:47-48 | `value ?? undefined` for numbers; definition, read by Api.LeaveTypeThreeSpellingChains |
| Api.ToBoolean | lib/api.ts:513-531 | `Boolean(x)` of `boolean | null | undefined`: true only for a present `true`; properties in Api.LeaveTypeFlagsDefaultFalse |
| Api.FindLower | lib/api.ts:56 | `find`: the first allowed entry whose lower case equals the key, or none when no entry does |
| Api.NormalizeStatus | lib/api.ts:50-57 | undefined for missing or empty input; a defined result is an allowed entry spelled as in the list, equal to the input ignoring case; defined iff some allowed entry matches ignoring case |
| Api.NormalizeStatusFirstMatch | lib/api.ts:56 | when two allowed entries match, the earlier one is returned |
| Api.NormalizeLeaveType | lib/api.ts:507-536 | definition; properties in Api.LeaveTypeFlagsDefaultFalse, Api.LeaveTypeFirstSpellingWins and Api.LeaveTypeThreeSpellingChains |
| Api.LeaveTypeFlagsDefaultFalse | lib/api.ts:513-517 | carryForwardAllowed, isPaid and requiresDocumentation are false when absent under every spelling (also lines 522, 528-532) |
| Api.LeaveTypeFirstSpellingWins | lib/api.ts:507-536 | in each two-spelling chain (id, company_id, name, code, description, status, created_at, updated_at) the first spelling wins whenever present, even as ""; the second is read only otherwise |
| Api.LeaveTypeThreeSpellingChains | lib/api.ts:512-531 | in each three-spelling chain (carryForwardAllowed, colorCode, daysAllowed, isPaid, maxCarryForwardDays, requiresDocumentation) the camelCase spelling wins whenever present, even as false; the PascalCase one is read only without it, and the snake_case one only without both |
| Api.NormalizeLeaveRequest | lib/api.ts:538-566 | definition; properties in Api.LeaveRequestStatusIsDecision, Api.WithdrawnStatusIsDropped and Api.UppercaseStatusNormalised |
| Api.LeaveRequestStatusIsDecision | lib/api.ts:546-550 | a normalised leave-request status is pending, approved, rejected or absent; defined iff the raw status lowercases to one of the three |
| Api.WithdrawnStatusIsDropped | lib/api.ts:546-550 | "withdrawn" in any casing normalises to no status |
| Api.UppercaseStatusNormalised | lib/api.ts:546-550 | "APPROVED" normalises to "approved" |
| Api.NormalizeLeaveBalance | lib/api.ts:569-582 | definition; properties in Api.LeaveBalanceNameChain, Api.LeaveBalanceCountChains and LeaveBalanceCard.NamelessBalanceShowsEmptyHeading |
| Api.LeaveBalanceNameChain | lib/api.ts:573-574 | the type name and type id take the snake_case spelling when present, even as "", else the PascalCase one, else ""; the name is never missing |
| Api.LeaveBalanceCountChains | lib/api.ts:576-579 | each count keeps the snake_case value when present, otherwise passes on the PascalCase field as sent, `null` and `undefined` included |
| Api.StepToNumber | lib/api.ts:597 | `Number(step)`: a number stays itself, text is read by Js.ToNumber; properties in Api.NormalizeSteps |
| Api.NormalizeSteps | lib/api.ts:596-598 | an array yields an array of the same length mapped element-wise with `Number`; a non-array yields undefined |
| Api.NormalizeApprovalWorkflow | lib/api.ts:584-609 | definition; properties in Api.WorkflowStepsShape |
| Api.WorkflowStepsShape | lib/api.ts:584-609 | the workflow's steps come from the first present spelling as above; its type is leave, memo, expense or absent |
| Api.UnwrapWorkflowList | lib/api.ts:805-809 | a bare array is normalised item by item; a paginated body's `data` likewise; anything else gives an empty list |
| Js.ToNumber | components/approval-workflows.tsx:118 | `Number` of a trimmed token: blank reads as 0 and a finite result is never negative (decimal digit tokens only) |
| LeaveRequestForm.DaysRequested | components/leave-request-form.tsx:76-83 | 0 iff a date is missing; with both dates, k+1 for dates k days apart in either order, hence at least 1 |
| LeaveRequestForm.DaysRequestedSymmetric | components/leave-request-form.tsx:80 | the count does not depend on the order of start and end |
| LeaveRequestForm.SingleDayIsOne | components/leave-request-form.tsx:80-82 | the same start and end day count as 1 |
| LeaveRequestForm.FormState.IsEmpty | components/leave-request-form.tsx:24-31 | the initial and reset state; established by the constructor, LeaveRequestForm.FormState.OnSubmitSucceeded and LeaveRequestForm.FormState.HandleCancel |
| LeaveRequestForm.FormState.constructor | components/leave-request-form.tsx:24-31 | the form starts empty with daysRequested 0 |
| LeaveRequestForm.FormState.ChangeText | components/leave-request-form.tsx:66-74 | `handleChange` on a text field sets that field and leaves every other field unchanged |
| LeaveRequestForm.FormState.ChangeDate | components/leave-request-form.tsx:66-74 | `handleChange` on a date field sets that date and leaves every other field unchanged |
| LeaveRequestForm.FormState.HandleSubmit | components/leave-request-form.tsx:87-101 | submits iff leave type, start and end are all set; otherwise reports missing fields and sends nothing; the payload carries the computed day count (at least 1) in place of the stored field |
| LeaveRequestForm.FormState.Reset | components/leave-request-form.tsx:104-111 | the `setFormData` reset shared by success and cancel leaves the form empty |
| LeaveRequestForm.FormState.OnSubmitSucceeded | components/leave-request-form.tsx:50-58 | after a successful submit the form is empty with daysRequested 0 |
| LeaveRequestForm.FormState.HandleCancel | components/leave-request-form.tsx:103-111 | cancel empties the form the same way |
| LeaveRequestForm.SubmitAfterCancelSendsNothing | components/leave-request-form.tsx:89-92 | a submit right after cancel reports missing fields |
| ApprovalWorkflows.Split | components/approval-workflows.tsx:117 | `split(",")`: at least one part, no part holds a comma, and joining the parts with commas gives the input back |
| ApprovalWorkflows.TokenNumbers | components/approval-workflows.tsx:118 | one number per token, each `Number` of the trimmed token |
| ApprovalWorkflows.IsStep | components/approval-workflows.tsx:119 | the filter test `Number.isFinite(value) && value > 0`; properties in ApprovalWorkflows.KeepSteps and ApprovalWorkflows.KeepStepsComplete |
| ApprovalWorkflows.KeepSteps | components/approval-workflows.tsx:119 | the kept values are positive, in input order, drawn from the numbers, and exactly as many as there are finite positive numbers |
| ApprovalWorkflows.ParseSteps | components/approval-workflows.tsx:116-119 | every parsed step is positive, the steps keep input order, and each comes from one comma-separated token |
| ApprovalWorkflows.KeepStepsComplete | components/approval-workflows.tsx:119 | every finite positive token value appears among the steps |
| ApprovalWorkflows.NoStepsFromZeros | components/approval-workflows.tsx:119-121 | when no token is a positive number the result is empty |
| ApprovalWorkflows.PaddedTokenReadsAsValue | components/approval-workflows.tsx:118 | whitespace around a digit token is ignored |
| ApprovalWorkflows.CompanyId | components/approval-workflows.tsx:52 | the query's company id when non-empty, else the stored one |
| ApprovalWorkflows.WorkflowForm.IsInitial | components/approval-workflows.tsx:38-43 | the initial values; established by ApprovalWorkflows.WorkflowForm.constructor and ApprovalWorkflows.WorkflowForm.OnCreated |
| ApprovalWorkflows.WorkflowForm.constructor | components/approval-workflows.tsx:38-43 | type memo, active, no department, steps "1" |
| ApprovalWorkflows.WorkflowForm.HandleCreate | components/approval-workflows.tsx:103-133 | guards in order (company id, department, at least one step), each failure stops creation; creates iff all pass, with company, department, active flag, parsed steps and type passed through |
| ApprovalWorkflows.WorkflowForm.OnCreated | components/approval-workflows.tsx:79-85 | after a create the form is back to memo, active, no department, steps "1" |
| ApprovalWorkflows.InitialStepsInputParses | components/approval-workflows.tsx:43 | the initial steps text "1" parses to the single step 1 |
| Approvals.StatusBadgeClass | components/approvals.tsx:200-204 | definition; properties in Approvals.StatusBadgeClassCases |
| Approvals.LeaveActionsOffered | components/approvals.tsx:368 | approve and reject are rendered only for a "pending" request; the precondition of Approvals.ApprovalsPage.OpenLeaveActionDialog |
| Approvals.MemoActionsOffered | components/approvals.tsx:534 | definition; properties in Approvals.MemoActionsOfferedIff |
| Approvals.MemoStatusLabel | components/approvals.tsx:517 | definition; properties in Approvals.EmptyMemoStatusLabelledPendingWithoutActions |
| Approvals.StatusBadgeClassCases | components/approvals.tsx:200-204 | green iff "approved", red iff "rejected", yellow for everything else including a missing status |
| Approvals.MemoActionsOfferedIff | components/approvals.tsx:534 | memo actions are offered iff the status is missing or "pending" |
| Approvals.EmptyMemoStatusLabelledPendingWithoutActions | components/approvals.tsx:517 | an empty memo status is shown as "pending" (`\|\|`) but gets no actions (`??`, line 534) |
| Approvals.PreviousPage | components/approvals.tsx:409 | Previous stays at 1 or above and steps back by one from above 1 |
| Approvals.NextPageAsWritten | components/approvals.tsx:416-417 | definition as written; properties in Approvals.NextPageAsWrittenLeavesRange and Approvals.PagerStaysInRange (see Findings) |
| Approvals.NextPageAsWrittenLeavesRange | components/approvals.tsx:416 | as written, Next from page 1 with 0 total pages goes to page 0 |
| Approvals.NextPage | components/approvals.tsx:416 | corrected Next: never below 1, never above a reached total, one forward while below it |
| Approvals.PagerStaysInRange | components/approvals.tsx:409-417 | from a page in [1, totalPages] Previous and Next stay in range, and there Next agrees with the code as written |
| Approvals.ApprovalsPage.constructor | components/approvals.tsx:35-52 | leave tab, both pagers on page 1, memo status filter "pending", nothing selected |
| Approvals.ApprovalsPage.SetActiveTab | components/approvals.tsx:266-272 | switching tab changes nothing else |
| Approvals.ApprovalsPage.ChangeLeaveFilter | components/approvals.tsx:286-289 | a leave filter change stores the value and resets the leave page to 1 (also lines 302-305); the memo side is untouched |
| Approvals.ApprovalsPage.ChangeMemoFilter | components/approvals.tsx:436-439 | a memo filter change stores the value and resets the memo page to 1 (also lines 452-455, 469-472); the leave side is untouched |
| Approvals.ApprovalsPage.LeavePrevious | components/approvals.tsx:409 | the leave page steps back, never below 1 |
| Approvals.ApprovalsPage.LeaveNext | components/approvals.tsx:416 | the leave page moves by the corrected Next, staying at 1 or above and within a reached total |
| Approvals.ApprovalsPage.MemoPrevious | components/approvals.tsx:575 | the memo page steps back, never below 1 |
| Approvals.ApprovalsPage.MemoNext | components/approvals.tsx:582 | the memo page moves by the corrected Next, staying at 1 or above and within a reached total |
| Approvals.ApprovalsPage.OpenLeaveActionDialog | components/approvals.tsx:206-209 | selects the request and action; only callable for a pending request (line 368) |
| Approvals.ApprovalsPage.ConfirmLeaveAction | components/approvals.tsx:217-224 | no call without both a selected request and an action; otherwise exactly approve or reject with its id |
| Approvals.ApprovalsPage.CloseLeaveDialog | components/approvals.tsx:594-600 | closing clears the selection and action, nothing else |
| Approvals.ApprovalsPage.OpenMemoActionDialog | components/approvals.tsx:211-215 | selects memo and action and clears the comments; only for a pending memo (line 534) |
| Approvals.ApprovalsPage.SetMemoComments | components/approvals.tsx:726 | typing sets the comments only |
| Approvals.ApprovalsPage.ConfirmMemoAction | components/approvals.tsx:226-247 | no call without selection; approve sends the trimmed comment or none when blank; reject with blank comments reports an error and sends nothing, else sends the trimmed, non-empty comments |
| Approvals.ApprovalsPage.CloseMemoDialog | components/approvals.tsx:680-688 | closing clears memo, action and comments, nothing else |
| EmployeeDashboard.IsMemoRead | components/employee-dashboard.tsx:148-156 | definition; properties in EmployeeDashboard.IsMemoReadIff |
| EmployeeDashboard.IsMemoReadIff | components/employee-dashboard.tsx:148-156 | read iff `read_by` is an array containing the employee, or the status is "read" in any letter case |
| EmployeeDashboard.CountStatus | components/employee-dashboard.tsx:159-167 | a status count never exceeds the number of requests |
| EmployeeDashboard.CountStatusIsMultiplicity | components/employee-dashboard.tsx:159-167 | each count is the number of requests with exactly that status |
| EmployeeDashboard.StatusCountsBounded | components/employee-dashboard.tsx:158-167 | pending + approved + rejected is at most the number of requests |
| EmployeeDashboard.CountUnread | components/employee-dashboard.tsx:168 | the unread count never exceeds the number of memos |
| EmployeeDashboard.CountUnreadIsMultiplicity | components/employee-dashboard.tsx:168 | the unread count is the number of memos `isMemoRead` rejects |
| EmployeeDashboard.ComputeStats | components/employee-dashboard.tsx:158-171 | the four stat cards are those counts |
| EmployeeDashboard.MemoKey | components/employee-dashboard.tsx:144 | the sort key `created_at ?? ""`; properties in EmployeeDashboard.SortMemosNewestFirst and EmployeeDashboard.MissingCreatedAtSortsLast |
| EmployeeDashboard.NewestFirst | components/employee-dashboard.tsx:143-145 | the order the comparator asks for; established by EmployeeDashboard.SortMemosNewestFirst |
| EmployeeDashboard.Insert | components/employee-dashboard.tsx:143-145 | inserting keeps the multiset of memos |
| EmployeeDashboard.InsertNewestFirst | components/employee-dashboard.tsx:143-145 | inserting into a newest-first list keeps it newest first |
| EmployeeDashboard.LeadingAboveStrict | components/employee-dashboard.tsx:143-145 | exactly the memos before the insertion point have a key strictly above the inserted memo's; the one at the point does not |
| EmployeeDashboard.InsertSplices | components/employee-dashboard.tsx:143-145 | inserting splices the memo in at that point and keeps everything else in order |
| EmployeeDashboard.InsertIsStable | components/employee-dashboard.tsx:141-146 | an inserted memo lands before every memo with an equal key, so memos with equal keys keep their input order, as a stable sort does |
| EmployeeDashboard.SortMemos | components/employee-dashboard.tsx:141-146 | the sorted copy is a permutation of the fetched memos |
| EmployeeDashboard.SortMemosNewestFirst | components/employee-dashboard.tsx:141-146 | the sorted copy is newest first by `created_at ?? ""` and a permutation |
| EmployeeDashboard.MissingCreatedAtSortsLast | components/employee-dashboard.tsx:144 | a memo without `created_at` is followed only by memos whose key is also "" |
| EmployeeDashboard.RequestBadge | components/employee-dashboard.tsx:331-337 | definition; properties in EmployeeDashboard.WithdrawOfferedIffPending and EmployeeDashboard.WithdrawnRequestShownRed |
| EmployeeDashboard.WithdrawOffered | components/employee-dashboard.tsx:342 | definition; properties in EmployeeDashboard.WithdrawOfferedIffPending |
| EmployeeDashboard.WithdrawOfferedIffPending | components/employee-dashboard.tsx:342 | withdraw is offered iff the row is yellow (pending); a missing status shows red (lines 332-337) without withdraw |
| EmployeeDashboard.WithdrawnRequestShownRed | components/employee-dashboard.tsx:342 | a request reported as withdrawn loses its status in the normaliser, shows red and offers no withdraw |
| EmployeeDashboard.Dashboard.MemoFormInitial | components/employee-dashboard.tsx:45-51 | `INITIAL_MEMO_FORM`; established by EmployeeDashboard.Dashboard.constructor and EmployeeDashboard.Dashboard.CloseMemoForm |
| EmployeeDashboard.Dashboard.constructor | components/employee-dashboard.tsx:45-61 | no context, composer hidden and initial |
| EmployeeDashboard.Dashboard.LoadContext | components/employee-dashboard.tsx:63-74 | a stored company or employee id is taken only when non-empty |
| EmployeeDashboard.Dashboard.OpenMemoForm | components/employee-dashboard.tsx:287 | shows the composer, nothing else changes |
| EmployeeDashboard.Dashboard.ChangeMemoText | components/employee-dashboard.tsx:466-536 | a text input changes only its field |
| EmployeeDashboard.Dashboard.ChangeMemoChoices | components/employee-dashboard.tsx:495-519 | type and priority change, nothing else |
| EmployeeDashboard.Dashboard.SubmitMemo | components/employee-dashboard.tsx:177-197 | nothing without company and employee ids or with blank title or content; otherwise a memo with trimmed non-empty title and content, recipients exactly [employee], and the trimmed reference or "MEM-" and a stamp |
| EmployeeDashboard.Dashboard.CloseMemoForm | components/employee-dashboard.tsx:118-123 | after a create (and on Cancel, lines 545-546) the composer is initial and hidden |
| LeaveBalanceCard.OrZero | components/leave-balance.tsx:90-108 | `count ?? 0`; read by LeaveBalanceCard.Available and LeaveBalanceCard.ShowBalance |
| LeaveBalanceCard.Available | components/leave-balance.tsx:108 | available + used + pending = total, each missing count read as 0 |
| LeaveBalanceCard.AvailableIgnoresCarriedForward | components/leave-balance.tsx:103-108 | carried-forward days do not change the available balance |
| LeaveBalanceCard.AvailableFallsWithPending | components/leave-balance.tsx:108 | each further pending day, or fraction of a day, lowers available by as much |
| LeaveBalanceCard.AvailableMayBeNegative | components/leave-balance.tsx:108 | the balance is not clamped: 3 used of 2 shows -1 |
| LeaveBalanceCard.AvailableKeepsHalfDays | components/leave-balance.tsx:108 | fractional counts are kept: 10 - 2.5 - 1 shows 6.5 |
| LeaveBalanceCard.ShowBalance | components/leave-balance.tsx:87-108 | the row shows the normalised type name (the `?? "Leave"` fallback never applies to the string the normaliser yields), each count or 0, and available as total - used - pending |
| LeaveBalanceCard.NamelessBalanceShowsEmptyHeading | components/leave-balance.tsx:87 | a balance sent with neither name spelling shows an empty heading, never "Leave", because lib/api.ts:574 always yields a string |
| LeaveBalanceCard.YearOptions | components/leave-balance.tsx:67-74 | exactly five years, the current one first, each next one less |
| LeaveBalanceCard.YearOptionsStrictlyDecreasing | components/leave-balance.tsx:67-74 | the options strictly decrease and end four years back |
| Roles.CollapseSeparators | app/dashboard/page.tsx:15 | definition; properties in Roles.CollapseSeparatorsShape |
| Roles.NormalizeRole | app/dashboard/page.tsx:11-16 | definition, the same text as app/employee-dashboard/page.tsx:10-15; properties in Roles.NormalizeRoleCanonical, Roles.NormalizeRoleIdempotent and Roles.NormalizeRoleOfCanonical |
| Roles.CollapseSeparatorsShape | app/dashboard/page.tsx:15 | the `[_\s]+` replacement is empty iff its input is, maps a leading separator to a space, leaves single spaces between words and keeps lower case |
| Roles.NormalizeRoleCanonical | app/dashboard/page.tsx:11-16 | `normalizeRole` output is lower case, trimmed, single-spaced and has no underscore |
| Roles.NormalizeRoleIdempotent | app/dashboard/page.tsx:11-16 | normalising twice equals normalising once |
| Roles.NormalizeRoleOfCanonical | app/dashboard/page.tsx:11-16 | a canonical name is its own normal form |
| Roles.NormalizeOneWord | app/dashboard/page.tsx:11-16 | a single word without separators normalises to its lower case |
| Roles.NormalizeTwoWords | app/dashboard/page.tsx:15 | any run of underscores and whitespace between two words becomes one space |
| Roles.NormalizeTrailingSeparators | app/dashboard/page.tsx:15-16 | a trailing run of separators ending in an underscore vanishes |
| Roles.SuperAdminConstant | app/dashboard/page.tsx:11-16 | "SUPER_ADMIN" normalises to "super admin" |
| Roles.SuperAdminName | app/dashboard/page.tsx:21 | "Super Admin" normalises to "super admin" |
| Roles.HrManagerName | app/dashboard/page.tsx:22 | "HR Manager" normalises to "hr manager" |
| Roles.EmployeeName | app/employee-dashboard/page.tsx:18 | "Employee" normalises to "employee" |
| AdminDashboardPage.AllowedRolesAreNormalisedNames | app/dashboard/page.tsx:18-25 | the allowed set is the normal forms of "Super Admin" and "HR Manager" |
| AdminDashboardPage.AccessGranted | app/dashboard/page.tsx:29-33 | definition; properties in AdminDashboardPage.AccessGrantedIff |
| AdminDashboardPage.AccessGrantedIff | app/dashboard/page.tsx:27-39 | access iff a non-empty token is stored and the normalised role is "super admin" or "hr manager" |
| AdminDashboardPage.SuperAdminConstantAdmitted | app/dashboard/page.tsx:30-33 | "SUPER_ADMIN" with a token is admitted |
| AdminDashboardPage.AccessIgnoresRoleSpelling | app/dashboard/page.tsx:31 | a role and its normal form get the same decision |
| AdminDashboardPage.Page.constructor | app/dashboard/page.tsx:9 | `isAllowed` starts unknown |
| AdminDashboardPage.Page.CheckAccess | app/dashboard/page.tsx:27-40 | outside a browser nothing changes; a denial sets `isAllowed` false and redirects to /login; a grant sets it true without redirect |
| AdminDashboardPage.Page.RendersDashboard | app/dashboard/page.tsx:42-50 | the dashboard renders only once `isAllowed` is true; read by AdminDashboardPage.MountPage |
| AdminDashboardPage.MountPage | app/dashboard/page.tsx:27-50 | the dashboard renders iff access is granted, and it is not rendered iff the page redirects to /login |
| EmployeeDashboardPage.AllowedRolesAreNormalisedNames | app/employee-dashboard/page.tsx:17-20 | the allowed set is the normal form of "Employee" plus the admin dashboard's set |
| EmployeeDashboardPage.CheckAuth | app/employee-dashboard/page.tsx:22-27 | false outside a browser or without a token, whatever the role; otherwise true iff the normalised role is allowed |
| EmployeeDashboardPage.AdminAdmittedHere | app/employee-dashboard/page.tsx:17-26 | everyone admitted to the admin dashboard is admitted here |
| EmployeeDashboardPage.EmployeeOnlyHere | app/employee-dashboard/page.tsx:17-26 | a role normalising to "employee" is admitted here and not to the admin dashboard |
| EmployeeDashboardPage.RenderPage | app/employee-dashboard/page.tsx:22-41 | the dashboard renders iff `checkAuth` holds; a server render (no window) shows nothing and does not redirect; in a browser a failed check shows nothing and redirects to /login |
| AppHeader.Words | components/app-header.tsx:57 | definition; properties in AppHeader.WordsShape and AppHeader.WordsOfJoinWords |
| AppHeader.WordsShape | components/app-header.tsx:57 | `trim().split(/\s+/).filter(Boolean)` gives non-empty words without whitespace, and none iff the name is blank |
| AppHeader.WordsOfJoinWords | components/app-header.tsx:57 | splitting words joined by single spaces gives those words back |
| AppHeader.Initials | components/app-header.tsx:55-61 | definition; properties in AppHeader.InitialsShape and AppHeader.InitialsOfFullName |
| AppHeader.InitialsShape | components/app-header.tsx:55-61 | "U" for an empty or blank name; one word gives its upper-cased first letter; more give the first letters of the first and last words |
| AppHeader.InitialsOfFullName | components/app-header.tsx:57-60 | "first middle… last" gives the initials of first and last |
| AppHeader.DisplayName | components/app-header.tsx:95 | the name when non-empty, else "Account"; never empty |
| AppHeader.DisplayRole | components/app-header.tsx:98 | the role when non-empty, else "User"; never empty |
| AppHeader.IsEmployeeRole | components/app-header.tsx:64 | definition; properties in AppHeader.HomePath, AppHeader.EmployeeRoleNormalises and AppHeader.TrailingUnderscoreNotEmployeeInHeader |
| AppHeader.HeaderShown | components/app-header.tsx:63-68 | definition; properties in AppHeader.Header.LoadUser |
| AppHeader.HomePath | components/app-header.tsx:64-65 | the employee dashboard iff the trimmed, lowercased role is "employee", otherwise /dashboard |
| AppHeader.EmployeeRoleNormalises | components/app-header.tsx:64 | a role the header treats as employee also normalises to "employee" for the route guards |
| AppHeader.TrailingUnderscoreNotEmployeeInHeader | components/app-header.tsx:64 | the converse fails: "employee_" normalises to "employee" for the guards but is not an employee role in the header, since underscores are not collapsed there |
| AppHeader.Header.constructor | components/app-header.tsx:20-24 | empty name and role, no token |
| AppHeader.Header.LoadUser | components/app-header.tsx:30-44 | the stored name when non-empty, else trimmed "first last"; the role or ""; token flag iff a non-empty token; the header then shows iff a token is present and the path is not "/" or "/login" (lines 63, 67-69); with no name, first or last name the name is "" and shows as "Account" with initials "U" |
| AppHeader.Header.Shown | components/app-header.tsx:63-68 | AppHeader.HeaderShown on the loaded state; properties in AppHeader.Header.LoadUser |
| Permissions.Project | components/permissions.tsx:52-56 | one permission projected; properties in Permissions.ProjectAll and Permissions.ProjectAllIgnoresBookkeeping |
| Permissions.ProjectAll | components/permissions.tsx:49-59 | one request per loaded permission, same length and order, carrying its action, resource and conditions |
| Permissions.ProjectAllIgnoresBookkeeping | components/permissions.tsx:52-56 | id, role and creation time do not affect the projection |
| Permissions.ProjectAllConcat | components/permissions.tsx:52 | projecting a concatenation projects each part |
| Permissions.WithoutIndex | components/permissions.tsx:82 | definition; properties in Permissions.WithoutIndexSpec and Permissions.RemoveUndoesAdd |
| Permissions.WithoutIndexSpec | components/permissions.tsx:82 | for a valid index exactly that entry is removed and the others keep their order; any other index leaves the list unchanged |
| Permissions.RemoveUndoesAdd | components/permissions.tsx:77-83 | removing the entry just appended gives the list back |
| Permissions.PermissionsEditor.constructor | components/permissions.tsx:44-47 | empty list, add dialog closed |
| Permissions.PermissionsEditor.LoadPermissions | components/permissions.tsx:49-59 | once permissions arrive the list is their projection; while loading it is unchanged |
| Permissions.PermissionsEditor.HandleAddPermission | components/permissions.tsx:77-79 | appends at the end: one longer, earlier entries unchanged |
| Permissions.PermissionsEditor.HandleRemovePermission | components/permissions.tsx:81-83 | removes exactly a valid position; an out-of-range index changes nothing |
| Permissions.PermissionsEditor.SetAddDialogOpen | components/permissions.tsx:104 | only the dialog flag changes |
| Permissions.AddPermissionDialog.constructor | components/permissions.tsx:170-172 | three empty inputs |
| Permissions.AddPermissionDialog.ChangeInputs | components/permissions.tsx:217-241 | the inputs take the new texts |
| Permissions.AddPermissionDialog.HandleAdd | components/permissions.tsx:174-193 | empty action or resource, or unparsable conditions, report an error and change nothing; otherwise the request (no conditions when the field is empty) is appended, the inputs are cleared and the dialog closes |
| Permissions.AddedEntryIsLast | components/permissions.tsx:77-79 | the added request is the last entry and removing it undoes the add |
| CompanySchema.AdminValid | lib/schema.ts:3-9 | definition; properties in CompanySchema.CreateCompanyValidBounds |
| CompanySchema.OptionalFieldsValid | lib/schema.ts:15-23 | definition; properties in CompanySchema.CreateCompanyValidBounds |
| CompanySchema.CreateCompanyValid | lib/schema.ts:11-28 | definition; properties in CompanySchema.CreateCompanyValidBounds and Landing.FormRefinesPayload |
| CompanySchema.CreateCompanyValidBounds | lib/schema.ts:3-28 | a valid payload has name and slug of 2 to 255, a status in the enum when present, a password of 8 or more and non-empty names; address, logo URL and admin phone are unbounded |
| Landing.FormAdminValid | components/landing.tsx:24-30 | definition; properties in Landing.FormStricterThanPayload |
| Landing.FormValid | components/landing.tsx:32-49 | definition; properties in Landing.FormRefinesPayload and Landing.FormStricterThanPayload |
| Landing.DefaultValues | components/landing.tsx:81-101 | definition; properties in Landing.DefaultValuesRejected and Landing.FilledDefaultsAccepted |
| Landing.FormRefinesPayload | components/landing.tsx:24-49 | everything the form schema accepts, the payload schema accepts |
| Landing.FormStricterThanPayload | components/landing.tsx:29 | the refinement is strict: a missing status (line 47) or an admin phone over 100 passes the payload schema but not the form |
| Landing.DefaultValuesRejected | components/landing.tsx:80-101 | the default values fail both schemas |
| Landing.ShortPasswordRejected | components/landing.tsx:26 | a password under 8 characters is rejected by both schemas |
| Landing.FilledDefaultsAccepted | components/landing.tsx:80-101 | the defaults with names, e-mail and password filled in are accepted |
| DateFormat.FormatDisplayDate | lib/date.ts:1-17 | definition; properties in DateFormat.DisplayDateCases and DateFormat.DisplayDateEmptyIffMissing |
| DateFormat.DisplayDateCases | lib/date.ts:5-10 | the fallback for a missing or empty value; an unparsable value is returned unchanged |
| DateFormat.DisplayDateEmptyIffMissing | lib/date.ts:1-17 | with fallback "" the text is empty iff the value is missing or empty |
| DateFormat.FormatDateRange | lib/date.ts:19-32 | definition; properties in DateFormat.DateRangeCases, DateFormat.DateRangeNeverEmpty and DateFormat.DateRangeParts |
| DateFormat.DateRangeCases | lib/date.ts:19-32 | both parts give "<start> to <end>", exactly one gives that part, neither gives the fallback |
| DateFormat.DateRangeNeverEmpty | lib/date.ts:31 | with a non-empty fallback the range text is never empty |
| DateFormat.DateRangeParts | lib/date.ts:27-28 | both parts can be read back from around " to " |
| DateFormat.DefaultFallbackNeverEmpty | lib/date.ts:1-32 | with the default `fallback = "-"`, a missing date shows "-" and neither formatter returns "" |
| Session.SessionKeysDistinct | lib/hooks.ts:31-48 | the six storage keys are pairwise distinct, so no write overwrites another |
| Session.TokenOf | lib/hooks.ts:29 | `response?.data?.token`; properties in Session.OnLoginSuccess |
| Session.CompanyIdOf | lib/hooks.ts:33-34 | definition; properties in Session.CompanyIdPrefersCompany |
| Session.FirstNameOf | lib/hooks.ts:38 | definition; properties in Session.NoEmployeeStoresAccount |
| Session.LastNameOf | lib/hooks.ts:39 | definition; properties in Session.NoEmployeeStoresAccount |
| Session.EmailOf | lib/hooks.ts:40 | definition; properties in Session.NoEmployeeStoresAccount |
| Session.RoleOf | lib/hooks.ts:43 | definition; properties in Session.EmptyRoleKept |
| Session.Browser.constructor | lib/hooks.ts:28-50 | `localStorage` holds the given entries and no event has been dispatched |
| Session.Browser.SetItem | lib/hooks.ts:31 | `localStorage.setItem` updates one key and nothing else |
| Session.Browser.DispatchEvent | lib/hooks.ts:49 | `window.dispatchEvent` appends one event and leaves storage alone |
| Session.FullName | lib/hooks.ts:41-42 | never empty; the trimmed "first last" when not blank, else the e-mail or "Account" |
| Session.StoreIfPresent | lib/hooks.ts:29-37 | writes the value under its key only when it is non-empty and a window exists; the events are untouched |
| Session.StoreProfile | lib/hooks.ts:44-50 | with a window the four profile keys hold their values and one auth-update event is dispatched; other keys are kept; without a window nothing changes |
| Session.OnLoginSuccess | lib/hooks.ts:28-50 | the token and company id are stored only when non-empty, the name, first and last names and role always (with a window), then the event; keys outside the session keys are never touched |
| Session.CompanyIdPrefersCompany | lib/hooks.ts:33-34 | the company's id wins; the employee's company id is used only without it; with neither there is none |
| Session.NoEmployeeStoresAccount | lib/hooks.ts:38-42 | without an employee record the name is "Account" and both names are "" |
| Session.FullNameOfNames | lib/hooks.ts:41-42 | non-empty first and last names without outer whitespace are stored as "first last" |
| Session.EmptyRoleKept | lib/hooks.ts:43 | only a missing role becomes "User"; an empty role is stored as "" |

## Left out

- HTTP is not modelled: the axios client, the `*Api` call bodies, react-query caching and invalidation, and toasts. The model returns which call would be made instead.
- The backend's leave ledger, reservation and approval state machine are not modelled. This client code does not contain them.
- `localStorage`, window events, router redirects and `useSearchParams` become parameters or returned values. The `storage` and `cf-auth-update` listeners of the header are not modelled.
- JavaScript `Date` parsing, `Intl.DateTimeFormat` and `Date.now()` are not modelled. Dates in the leave form are integer day numbers, the date formatter is a parameter function, and the memo reference stamp is a parameter.
- `JSON.parse` in the add-permission dialog is a parameter `parse`. Parsed conditions are kept as a map of strings.
- zod's `.email()` check is a parameter predicate `isEmail`. zod counts lengths in UTF-16 units; the model counts characters.
- Js.ToNumber: only blank and decimal-digit tokens are read. Decimals, signs, exponents, hex and `Infinity` read as not-a-number, so such tokens are dropped as invalid steps.
- LeaveBalanceCard.Available: the day counts of balances and leave types (lib/types.ts:398-401, 419-426, 317-325) are JSON numbers, modelled as exact `real`s. Half days are covered. IEEE-754 rounding of the subtraction at components/leave-balance.tsx:108 is not: there 0.3 - 0.1 - 0.2 is not 0, so the contract `available + used + pending == total` holds of exact arithmetic only. The balance's `year` is an `int`.
- DateFormat.FormatDisplayDate and DateFormat.FormatDateRange take the fallback as a required parameter. The default `"-"` of lib/date.ts:3 and 22 is the constant DateFormat.DefaultFallback, which a caller omitting the argument passes.
- Text.IsSpace: whitespace is ASCII only, and letter case is ASCII only. `toUpperCase` expansions in the initials are not modelled.
- Api.NormalizeLeaveRequest: the nested `employee` record (lines 559-562) is not normalised, because `normalizeEmployee` is not part of this model.
- The other `normalize*` builders of lib/api.ts (normalizeDepartment, normalizeLevel, normalizeDesignation, normalizeEmployee, normalizeRole) are not modelled: none of them feeds a modelled component, and they follow the same `??` pattern as the leave-type and leave-balance builders.
- EmployeeDashboard.SortMemos: `localeCompare` is modelled as code-unit lexicographic order. The sort is an insertion sort and is stable, as `Array.prototype.sort` is.
- The CRUD directory pages, the rendering-only components, the login form and the layout are UI wiring without decisions of their own, and are not modelled.
- Approvals.ApprovalsPage.LeaveNext: uses the corrected Next (see Findings), so it does not reproduce page 0 after a report of zero pages (components/approvals.tsx:416).
- Approvals.ApprovalsPage.MemoNext: uses the corrected Next (see Findings), so it does not reproduce page 0 after a report of zero pages (components/approvals.tsx:582).

## Findings

| source | as written | input that shows it | evidently intended | confidence | as-written member | corrected member |
|---|---|---|---|---|---|---|
| components/approvals.tsx:416 (also 582) | Next is enabled unless `page == totalPages` and sets `Math.min(totalPages, p + 1)` | page 1 with `total_pages` 0 (an empty result) moves to page 0 | the page never goes below 1 | not executed | Approvals.NextPageAsWrittenLeavesRange | Approvals.NextPage |
