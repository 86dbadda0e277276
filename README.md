# Full of Shift: a verified model of the shift and invoice logic

This Dafny project models the rule-bearing core of the invoice-manager app,
a small web application where tutors record their teaching shifts and
produce monthly invoices. It covers:

- The `/api/shifts` route. POST checks the session, then validates the body
  against `createShiftSchema`. It builds the first record and, for a
  recurring shift, adds one copy per later week of the same month. All
  records go to the store in one batch. GET lists the caller's shifts in
  ascending date order.
- The month-end script. On the last day of a month, it copies every
  recurring shift one calendar month ahead. A copy is skipped when a shift
  with the same date, times, class and grade already exists.
- The shift-creation schema, including the `H:MM`/`HH:MM` time pattern.
- The profile-completion form: its ordered checks, the digit-only input
  filters, and the submit handler.
- The shift-management page: adding a shift, marking one completed or
  denied, and the split into upcoming and past shifts.
- The invoice document's figures: hours, rate, rows and totals.
- The two invoice-month labels: `YYYY-MM` in the navigation bar and
  `YYYY-M` on the dashboard. Also the dashboard's redirect decision.

The shift store is modelled as a `ShiftTable` class whose `rows` sequence
the handlers append to. Dates are proleptic Gregorian `(year, month, day)`
triples. `addWeeks`, `endOfMonth`, `isBefore` and `setMonth` are written
out day by day in `calendar.dfy`. The session, "now" and the outcome of
network requests are parameters.

Files:

- `wrappers.dfy`: `Option`.
- `calendar.dfy`: dates and the date operations.
- `decimal_text.dfy`: `String(n)`, `padStart` and digit runs.
- `shifts.dfy`: the shift record, the status enum and the table.
- `shift_schema.dfy`: the schema.
- `shift_routes.dfy`: POST and GET.
- `recurring_job.dfy`: the month-end script.
- `complete_profile.dfy`: the profile form.
- `shift_board.dfy`: the shift page.
- `invoice_pdf.dfy`: the invoice figures.
- `month_labels.dfy`: `NavBar` and `Dashboard`.

Two consequences of the code are worth knowing:

- The weekly loop compares each start of day against `endOfMonth`, the
  last millisecond of the month, so a copy that falls on the month's last
  day is kept (`Calendar.StartOfDayBeforeEndOfMonth`,
  `ShiftRoutes.WeeklyRecordsBeforeMonthEnd`).
- Re-running the month-end loop over the same snapshot adds nothing
  (`RecurringJob.StepAllIdempotent`). A second complete run takes a fresh
  snapshot that includes the copies just made, and copies those one month
  further (`RecurringJob.SecondRunCopiesCopies`).

Because `setMonth` lets a missing day spill over, a recurring shift on
31 January is copied to 3 March (`Calendar.AddMonthJsSkipsFebruary`).

## Model

| member | source | states |
|---|---|---|
| Calendar.DaysInMonth | invoice-manager/app/api/shifts/route.ts:34 | month lengths: 31 days exactly for months 1, 3, 5, 7, 8, 10, 12; 29 exactly for February in a leap year; 28 exactly for February otherwise |
| Calendar.EndOfMonthLatest | invoice-manager/app/api/shifts/route.ts:34 | `endOfMonth` is not before any moment of the same month |
| Calendar.StartOfDayBeforeEndOfMonth | invoice-manager/app/api/shifts/route.ts:51 | a day starts before `endOfMonth` exactly when it is on or before the month's last day, so the last day itself passes the guard |
| Calendar.NextDay | invoice-manager/scripts/scripts.js:48-49 | `setDate(getDate() + 1)` gives a valid day strictly after today |
| Calendar.NextDayImmediate | invoice-manager/scripts/scripts.js:48-49 | no valid day lies strictly between a day and the next one |
| Calendar.AddDaysWithinMonth | invoice-manager/app/api/shifts/route.ts:50-64 | adding days that stay in the month only increases the day number |
| Calendar.AddDaysNotEarlier | invoice-manager/app/api/shifts/route.ts:50-64 | adding a positive number of days moves strictly forward |
| Calendar.AddDaysPastMonth | invoice-manager/app/api/shifts/route.ts:50-51 | adding more days than remain in the month lands after its last day |
| Calendar.AddDaysAdditive | invoice-manager/app/api/shifts/route.ts:50-64 | adding n days and then k days is adding n + k days |
| Calendar.AddWeeksStep | invoice-manager/app/api/shifts/route.ts:64 | one more `addWeeks(_, 1)` after w weeks is w + 1 weeks from the start |
| Calendar.AddMonthJsCases | invoice-manager/scripts/scripts.js:11-13 | `setMonth(getMonth() + 1)` keeps the day in the next month when that month has it, and otherwise overflows into the month after by the missing days |
| Calendar.AddMonthJsSkipsFebruary | invoice-manager/scripts/scripts.js:11-13 | 31 January 2025 becomes 3 March 2025 |
| Calendar.TomorrowInOtherMonth | invoice-manager/scripts/scripts.js:46-52 | tomorrow's month differs from today's exactly when today is the month's last day |
| Shifts.StatusFromName | invoice-manager/app/validationSchemas.ts:6 | a name is accepted exactly when it is one of the five enum values, and it reads back to that value |
| Shifts.ShiftTable.CreateMany | invoice-manager/app/api/shifts/route.ts:69-71 | the batch is appended to the rows in order |
| Shifts.ShiftTable.Create | invoice-manager/scripts/scripts.js:28-38 | one row is appended |
| ShiftSchema.Issues | invoice-manager/app/validationSchemas.ts:3-15 | a key is reported exactly when it is a schema key whose rule fails |
| ShiftSchema.SafeParse | invoice-manager/app/validationSchemas.ts:3-15 | the parse succeeds exactly when every key's rule holds. On failure, the issues list is non-empty and names exactly the failing keys. On success, the data carries the body's values with a valid date, and `recurring` is true only when the body says true (absent gives false) |
| ShiftSchema.TimeTextSound | invoice-manager/app/validationSchemas.ts:8-13 | every accepted time is an hour 0-23 (one or two digits) and a two-digit minute 0-59 |
| ShiftSchema.TimeTextComplete | invoice-manager/app/validationSchemas.ts:8-13 | every hour 0-23, padded or not, with every minute 0-59 is accepted and reads back to the same hour and minute |
| ShiftSchema.TimeTextExamples | invoice-manager/app/validationSchemas.ts:8-13 | "9:05", "09:05", "23:59" and "0:00" pass; "24:00", "12:60", "9:5" and "123:45" fail |
| ShiftSchema.EndBeforeStartAccepted | invoice-manager/app/validationSchemas.ts:8-13 | no rule relates the two times: an end of 9:00 after a start of 10:00 is accepted, and a missing `recurring` parses as false |
| ShiftRoutes.SessionUserId | invoice-manager/app/api/shifts/route.ts:13-17 | a user id is available exactly when there is a session whose user id is present and non-empty |
| ShiftRoutes.FirstRecord | invoice-manager/app/api/shifts/route.ts:30-47 | the first record carries the parsed class, grade, status, date and times, is owned by the session user, and is recurring exactly when the body's `recurring` is true |
| ShiftRoutes.WeeklyCount | invoice-manager/app/api/shifts/route.ts:49-66 | between 1 and 5 records, and exactly 1 when not recurring |
| ShiftRoutes.WeeklyRecords | invoice-manager/app/api/shifts/route.ts:38-61 | the first record comes first. All records are equal except for the date, and every date is valid and in the first date's month |
| ShiftRoutes.ExpandShift | invoice-manager/app/api/shifts/route.ts:33-66 | the push loop produces exactly the closed-form expansion `WeeklyRecords` |
| ShiftRoutes.WeeklyRecordsOneWeekApart | invoice-manager/app/api/shifts/route.ts:50-64 | each record's date is `addWeeks(previous, 1)` |
| ShiftRoutes.WeeklyRecordsBeforeMonthEnd | invoice-manager/app/api/shifts/route.ts:34-51 | every record starts before `endOfMonth` of the first date |
| ShiftRoutes.WeeklyRecordsComplete | invoice-manager/app/api/shifts/route.ts:51 | the week after the last record fails the guard, so no week of the month is missing |
| ShiftRoutes.WeeklyCountBounds | invoice-manager/app/api/shifts/route.ts:49-66 | a recurring expansion of k records reaches week k - 1 of the month but not week k |
| ShiftRoutes.WeeklyRecordsJanuaryExample | invoice-manager/app/api/shifts/route.ts:49-66 | a recurring shift on 6 January 2025 yields four records, the last on 27 January |
| ShiftRoutes.Post | invoice-manager/app/api/shifts/route.ts:9-73 | no session user gives 401 and leaves the table unchanged. A failed validation gives 400 with the issues and leaves the table unchanged. Otherwise the whole expansion is appended in one batch and 201 reports its size |
| ShiftRoutes.OwnedBy | invoice-manager/app/api/shifts/route.ts:90-91 | exactly the rows whose owner is the user |
| ShiftRoutes.OwnedByCounts | invoice-manager/app/api/shifts/route.ts:90-91 | each of the user's rows is kept exactly as often as it occurs, and no other row is kept |
| ShiftRoutes.OwnedByConcat | invoice-manager/app/api/shifts/route.ts:90-91 | the filter keeps table order |
| ShiftRoutes.InsertByDate | invoice-manager/app/api/shifts/route.ts:92-94 | inserting into a date-sorted list keeps it sorted and adds exactly one element |
| ShiftRoutes.SortByDate | invoice-manager/app/api/shifts/route.ts:92-94 | the result is sorted by date and is a permutation of the input |
| ShiftRoutes.Get | invoice-manager/app/api/shifts/route.ts:80-97 | 401 exactly without a session user. Otherwise the list is sorted by ascending date, is a permutation of the user's rows, and holds exactly the rows the user owns |
| RecurringJob.RecurringRows | invoice-manager/scripts/scripts.js:6-8 | exactly the recurring rows |
| RecurringJob.RecurringRowsCounts | invoice-manager/scripts/scripts.js:6-8 | each recurring row is kept exactly as often as it occurs, and no other row is kept |
| RecurringJob.RecurringRowsConcat | invoice-manager/scripts/scripts.js:6-8 | the snapshot keeps table order |
| RecurringJob.FindFirst | invoice-manager/scripts/scripts.js:17-25 | a row is found exactly when some row has the key, and the row found has that key |
| RecurringJob.NextMonthCopy | invoice-manager/scripts/scripts.js:28-37 | the inserted row is the source moved by `setMonth(getMonth() + 1)`, with the same times, class and grade, status UPCOMING, recurring, and no owner |
| RecurringJob.AddRecurringShifts | invoice-manager/scripts/scripts.js:5-44 | the loop over the snapshot leaves the table equal to `AfterJob` of the old table |
| RecurringJob.RunMonthEnd | invoice-manager/scripts/scripts.js:46-60 | the job runs exactly on a month's last day; otherwise the table is unchanged |
| RecurringJob.StepAllKeepsRows | invoice-manager/scripts/scripts.js:10-43 | existing rows are never changed, moved or deleted; the table only grows |
| RecurringJob.StepAllAddsCopies | invoice-manager/scripts/scripts.js:10-43 | at most one row is added per source, and every added row is the next-month copy of a source |
| RecurringJob.StepAllCoversSources | invoice-manager/scripts/scripts.js:17-38 | afterwards, every source's copy key is present in the table |
| RecurringJob.StepAllNoOp | invoice-manager/scripts/scripts.js:27 | when every copy key is already present, the loop changes nothing |
| RecurringJob.StepAllIdempotent | invoice-manager/scripts/scripts.js:17-28 | re-running the loop over the same snapshot inserts nothing |
| RecurringJob.StepAllNoNewDuplicates | invoice-manager/scripts/scripts.js:17-28 | no inserted row shares its key with any earlier row, so two sources with the same copy key give one insert |
| RecurringJob.StepAllInvisibleToOwners | invoice-manager/scripts/scripts.js:28-37 | copies carry no owner, so no user's GET list changes |
| RecurringJob.OwnedByAppendOrphan | invoice-manager/scripts/scripts.js:28-37 | appending an ownerless row changes no user's rows |
| RecurringJob.SecondRunCopiesCopies | invoice-manager/scripts/scripts.js:5-44 | a second complete run copies the first run's copy one month further |
| DecimalText.NatText | invoice-manager/app/components/NavBar.tsx:11 | `String(n)` is a non-empty run of digits, one character long exactly below 10 |
| DecimalText.NatTextRoundTrip | invoice-manager/app/components/NavBar.tsx:11 | the digits of `String(n)` read back as n, without a leading zero |
| DecimalText.PadStart | invoice-manager/app/components/NavBar.tsx:11 | `padStart` reaches the width, keeps the text at the end and fills the front |
| DecimalText.PadStartValue | invoice-manager/app/components/NavBar.tsx:11 | zero-padding keeps the number's value |
| DecimalText.DashJoinSplit | invoice-manager/app/components/NavBar.tsx:12 | a dash-joined pair splits back uniquely when the first part has no dash |
| CompleteProfile.KeepDigits | invoice-manager/app/login/complete-profile/page.tsx:102 | the filtered value has only digits, is no longer than the input, and equals the input when the input is all digits |
| CompleteProfile.KeepDigitsCounts | invoice-manager/app/login/complete-profile/page.tsx:102 | every digit is kept as often as it occurs, and nothing else is kept |
| CompleteProfile.KeepDigitsConcat | invoice-manager/app/login/complete-profile/page.tsx:102 | filtering keeps order: filtering a join is joining the filtered parts |
| CompleteProfile.KeepDigitsIdempotent | invoice-manager/app/login/complete-profile/page.tsx:102 | filtering twice is filtering once |
| CompleteProfile.TrimStart | invoice-manager/app/login/complete-profile/page.tsx:36 | only leading white space is removed, and the result does not start with white space |
| CompleteProfile.TrimEnd | invoice-manager/app/login/complete-profile/page.tsx:36 | only trailing white space is removed, and the result does not end with white space |
| CompleteProfile.TrimEmptyIffBlank | invoice-manager/app/login/complete-profile/page.tsx:36 | a name trims to length 0 exactly when all its characters are white space |
| CompleteProfile.LeadingDigits | invoice-manager/app/login/complete-profile/page.tsx:30 | the longest digit prefix |
| CompleteProfile.DigitsValuePositive | invoice-manager/app/login/complete-profile/page.tsx:30 | a digit run's value is positive exactly when some digit is not zero |
| CompleteProfile.ParseFloatInteger | invoice-manager/app/login/complete-profile/page.tsx:30 | an optional sign and a digit run, followed by anything but a digit, a point or an exponent marker, read as the signed value of the digits |
| CompleteProfile.ParseFloatFraction | invoice-manager/app/login/complete-profile/page.tsx:30 | an optional sign, integer digits, a point and fraction digits, followed by anything but a digit or an exponent marker, read as the signed integer value plus the fraction digits over their power of ten |
| CompleteProfile.ParseFloatNatText | invoice-manager/app/login/complete-profile/page.tsx:30 | `parseFloat(String(n) + rest)` is n whenever `rest` does not start with a digit, a point or an exponent marker |
| CompleteProfile.ParseFloatStopsAtSuffix | invoice-manager/app/login/complete-profile/page.tsx:30 | "12.25x" reads as 12.25 |
| CompleteProfile.ParseFloatNaN | invoice-manager/app/login/complete-profile/page.tsx:30 | "abc", "-." and "" are NaN |
| CompleteProfile.WageOkIff | invoice-manager/app/login/complete-profile/page.tsx:30 | a wage passes exactly when its number has no minus sign and a non-zero digit |
| CompleteProfile.ZeroWageRefused | invoice-manager/app/login/complete-profile/page.tsx:30 | "0.00" is refused |
| CompleteProfile.NegativeWageRefused | invoice-manager/app/login/complete-profile/page.tsx:30 | "-3" is refused |
| CompleteProfile.ValidateFormFirstFailure | invoice-manager/app/login/complete-profile/page.tsx:28-46 | the message of check i is returned exactly when check i fails and every earlier check passes |
| CompleteProfile.ValidateFormAccepts | invoice-manager/app/login/complete-profile/page.tsx:28-46 | `null` is returned exactly when all six checks pass |
| CompleteProfile.EmptyRoleFirst | invoice-manager/app/login/complete-profile/page.tsx:29 | an empty role gives "Please select a role." whatever else is filled in |
| CompleteProfile.ProfileForm.SetContactNumber | invoice-manager/app/login/complete-profile/page.tsx:102 | the stored contact number is the filtered input |
| CompleteProfile.ProfileForm.SetBsb | invoice-manager/app/login/complete-profile/page.tsx:117 | the stored BSB is the filtered input |
| CompleteProfile.ProfileForm.SetAccountNumber | invoice-manager/app/login/complete-profile/page.tsx:125 | the stored account number is the filtered input |
| CompleteProfile.ProfileForm.HandleSubmit | invoice-manager/app/login/complete-profile/page.tsx:48-73 | with a message, the message is shown and nothing is sent. Otherwise the profile is sent with a positive wage, loading ends, and the page goes to the dashboard on success or shows the failure message |
| ShiftBoard.ParseDateInput | invoice-manager/app/shifts/page.tsx:29 | a parsed date is a valid day at its first millisecond |
| ShiftBoard.DateInputRoundTrip | invoice-manager/app/shifts/page.tsx:29 | every day a date input can hold reads back as the start of that day |
| ShiftBoard.EmptyDateInvalid | invoice-manager/app/shifts/page.tsx:29 | an empty date input gives an invalid date |
| ShiftBoard.SetStatusEffect | invoice-manager/app/shifts/page.tsx:37-47 | on a matching id, `isCompleted` is true exactly for completed and `isDenied` exactly for denied, never both, and the other fields stay; other ids are untouched |
| ShiftBoard.SetStatus | invoice-manager/app/shifts/page.tsx:38-47 | the list length is unchanged |
| ShiftBoard.SetStatusLastWins | invoice-manager/app/shifts/page.tsx:37-47 | of two statuses set on one id, the later one counts |
| ShiftBoard.SetStatusIdempotent | invoice-manager/app/shifts/page.tsx:37-47 | setting the same status twice is setting it once |
| ShiftBoard.SideMembers | invoice-manager/app/shifts/page.tsx:50-51 | a shift is upcoming (past) exactly when it is in the list and not past (past) |
| ShiftBoard.SidesPartition | invoice-manager/app/shifts/page.tsx:50-51 | upcoming and past together hold every shift exactly as often as the list does |
| ShiftBoard.SideConcat | invoice-manager/app/shifts/page.tsx:50-51 | each side keeps the list's relative order |
| ShiftBoard.SetStatusKeepsSides | invoice-manager/app/shifts/page.tsx:37-51 | marking a shift never moves it between upcoming and past |
| ShiftBoard.ShiftPage.HandleAddShift | invoice-manager/app/shifts/page.tsx:26-35 | exactly one shift is appended at the end from the draft, the earlier shifts keep their order, and the draft is reset to empty strings |
| ShiftBoard.ShiftPage.HandleShiftStatus | invoice-manager/app/shifts/page.tsx:37-48 | the list becomes `SetStatus` of the old list |
| InvoicePdf.EffectiveRate | invoice-manager/app/components/InvoicePDF.tsx:132 | the stored rate unless it is missing or zero, in which case 40 |
| InvoicePdf.Rows | invoice-manager/app/components/InvoicePDF.tsx:182-196 | one row per shift |
| InvoicePdf.RowOfShift | invoice-manager/app/components/InvoicePDF.tsx:182-193 | row i shows 2 hours, a wage of 2 × rate and "Adi Substitute - " followed by shift i's class |
| InvoicePdf.RowsConcat | invoice-manager/app/components/InvoicePDF.tsx:182 | rows follow the input order |
| InvoicePdf.RowsAddUp | invoice-manager/app/components/InvoicePDF.tsx:130-133 | the rows' hours add up to 2 × the number of shifts, and their wages to that times the rate |
| InvoicePdf.ClassDetailsSection | invoice-manager/app/components/InvoicePDF.tsx:170-208 | the "no shifts" text appears exactly when there are no shifts; otherwise the table's rows are the per-shift rows in input order, and its totals are the shift count times 2 hours and those hours times the rate |
| InvoicePdf.TableTotalsAgree | invoice-manager/app/components/InvoicePDF.tsx:198-205 | the total row's hours equal the rows' sum and 2 × the number of shifts, and the total wage equals the rows' sum and total hours × rate |
| NavBar.MonthPart | invoice-manager/app/components/NavBar.tsx:11 | the month part is always two characters and has no dash |
| NavBar.MonthPartDigits | invoice-manager/app/components/NavBar.tsx:11 | the month part is two digits denoting `getMonth() + 1`, with a leading zero exactly before October |
| NavBar.CurrentMonth | invoice-manager/app/components/NavBar.tsx:8-13 | the label is the year's digits, a dash, then the two-character padded month, three characters longer than the year |
| NavBar.CurrentMonthIdentifiesMonth | invoice-manager/app/components/NavBar.tsx:8-13 | two dates give the same label exactly when they are in the same month |
| NavBar.InvoicesLink | invoice-manager/app/components/NavBar.tsx:35 | the link is "/invoices/" followed by the label |
| NavBar.MarchExample | invoice-manager/app/components/NavBar.tsx:11-12 | March 2025 is "2025-03" |
| NavBar.DecemberExample | invoice-manager/app/components/NavBar.tsx:11-12 | December 2024 is "2024-12" |
| Dashboard.CurrentMonthYear | invoice-manager/app/dashboard/page.tsx:9-14 | the label is the year's digits, a dash and the unpadded month, one character shorter before October |
| Dashboard.CurrentMonthYearIdentifiesMonth | invoice-manager/app/dashboard/page.tsx:9-14 | two dates give the same label exactly when they are in the same month |
| Dashboard.LabelsAgreeFromOctober | invoice-manager/app/dashboard/page.tsx:12-13 | the dashboard's label equals the navigation bar's exactly for months 10-12 |
| Dashboard.MarchExample | invoice-manager/app/dashboard/page.tsx:13 | March 2025 is "2025-3" |
| Dashboard.DashboardPage | invoice-manager/app/dashboard/page.tsx:16-49 | no session redirects to "/login". A session without a role (missing or empty) redirects to "/login/complete-profile". The page renders exactly when there is a session with a non-empty role, and then links "/invoices/" followed by the label |

## Left out

- Time zones and JavaScript `Date` parsing. Dates are calendar days read in one fixed zone; the model does not distinguish a UTC `new Date("YYYY-MM-DD")` from local-time `endOfMonth`, `setMonth` or `isPast`. `toISOString().split('T')[0]` is taken to give back the same day.
- `z.coerce.date()` on arbitrary values: the body's `date` is either a valid day or rejected.
- Lengths are counted in characters, not UTF-16 code units, for the 255-character limits.
- The stored `recurring` column when the body omits the field: the route stores the raw `undefined`, and the model assumes the store's default of false.
- Row identifiers assigned by the store, `Math.random` ids and invoice numbers: the model takes ids as parameters.
- Prisma I/O, HTTP plumbing beyond the 401/400/201 decision, the 500 error paths, `console` logging and the `$disconnect` calls.
- Concurrent runs of the month-end job.
- CompleteProfile.ParseFloat: only optional sign, digits and an optional fraction are read. Leading white space, exponents, "Infinity" and floating-point rounding are not modelled, and the wage is an exact decimal.
- InvoicePdf.EffectiveRate: the rate is an integer, so a NaN rate (which also falls back to 40) is not modelled.
- The `maxLength` input attributes on the contact, BSB and account inputs: the browser enforces them, not the handlers.
- ShiftBoard.ParseDateInput: only the `YYYY-MM-DD` form a date input produces is read. Other text that engines may accept is treated as an invalid date.
- The session-loading branch of the profile page and its redirect to "/login".
- NavBar.CurrentMonth and Dashboard.CurrentMonthYear: years before 0 are not modelled.
- Rendering, styles, the "EEEE" and "dd/MM/yy" date formats, the header and payment sections of the invoice, and the logout buttons.
