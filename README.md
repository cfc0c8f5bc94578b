# SmartBILL business rules in Dafny

SmartBILL is a job-work billing application with a FastAPI backend and a React frontend. A foundry takes castings from a party on an inward "party challan", processes them, and sends them back on delivery challans. It then bills the delivered OK and CR quantities on invoices, records payments against those invoices, and runs payroll, expenses, backups and access control beside that. This project models the business rules of that application and proves their properties. The rules are: arithmetic on quantities and money, filters and sums the database queries compute, and small state updates that the routers and the screens' handlers perform.

One module per area of the application, one file per module:

- `Common` (common.dfy): the shared pieces used by the other modules.
  - Option, and an HTTP-style `Result` for the routers' 4xx answers.
  - Filter, sort by key and distinct.
  - Sums and counts.
  - Digits, case, trimming, splitting and joining.
- `Calendar` (calendar.dfy): month lengths, weekdays, month stepping, and calendar dates ordered like their "yyyy-MM-dd" text.
- `EwayBill`: the e-way-bill eligibility threshold, the distance-to-validity table, HSN padding, GSTIN and state codes, and the request validators.
- `Payments`: creating a payment applies its allocations to the invoices' paid amounts and statuses. Deleting it reverses them, and updating it touches only the payment itself.
- `PaymentForm`: the payment screen's pending-invoice list, the allocation toggle, the oldest-first auto-allocation and the submitted request.
- `ClientLedger`: the client portal's statement (opening balance, date-ordered merge, running balance), the dashboard outstanding figure, the year names, and the statement screen's figures, CSV export and date presets.
- `PublicChallan`: the QR-code challan endpoints. It covers the signature gate, the per-item download rows, the summary's rates and totals, and the Indian-grouping currency formatter.
- `PartyChallans`: "PC-NNN" numbering, the create, update and delete guards, and delivery progress.
- `JobWorkReports`: the job-work register and the opening/in/out/balance ledger with its signed download link. It also covers the Reports page's date-window recomputation of that ledger.
- `DeliveryChallanForm`, `InvoiceForm` and `PartyChallanForm`: the three entry forms. Each is a class whose fields the handlers reassign.
- `Stock`: stock on hand as incoming minus outgoing, and the creation of a delivery challan that refuses to oversell.
- `Payroll` and `AttendanceViews`: the attendance upsert, the salary formula and the slip's earned basic. They also cover the monthly report grid and the employee's month calendar.
- `EmployeeIds`: the two scripts that number employees within their company, working in place on an array.
- `FinancialYears`: the active/locked life cycle of a company's financial years, and the dialog that manages them.
- `Backups`: file names, the salt-then-ciphertext layout, and listing. It also covers deletion, pruning to the seven newest automatic backups, and the choice of restore tool.
- `Permissions`, `Roles` and `Users`: the permission checks of the backend and of the frontend hook, the role editor and the user administration screen.
- `ClientSettings`: the change-password form's strength meter and checks.
- `Subscription`: the backend subscription gate, the subscription card, and the super-admin dashboard's plan features, expiry colours and extensions.
- `CompanySettings`: the weekly off-days endpoint.
- `Expenses`: the expense listing, statistics, create, update, delete and recurring posting. It also covers the expense dialog's payload and its category suggestions.
- `Listing`: the items and challans list screens, with filters, pages, page buttons and ellipses, figures, and the barcode print count.
- `Barcode`: the keyboard-wedge barcode scanner hook.

A few conventions hold across modules:

- Money is integer paise wherever the source only adds and compares. It is `real` where the source divides.
- Quantities are integers, in hundredths where the column has two decimals. The public challan endpoints are the exception: there quantities are whole numbers (see "Left out").
- Dates are day numbers, or `Calendar` dates where months matter.
- The database is a sequence of rows in insertion order. A router that updates rows in place is a class whose `seq` or `map` fields its methods reassign.
- Clocks, random salts, cryptographic primitives and external tools are parameters of the members that use them.

## Model

| member | source | states |
|---|---|---|
| EwayBill.RequiresEwayBill | backend/app/utils/eway_bill_utils.py:7-17 | an e-way bill is required exactly when the invoice amount is at least 50000 |
| EwayBill.CalculateValidity | backend/app/utils/eway_bill_utils.py:20-45 | 1 day under 100 km, 3 days under 300 km, ceil(d/100) days under 1000 km, 15 days from 1000 km |
| EwayBill.ValidityBounds | backend/app/utils/eway_bill_utils.py:36-45 | the validity always lies in 1..15 days |
| EwayBill.ValidityMonotone | backend/app/utils/eway_bill_utils.py:36-45 | a longer distance never gets fewer validity days |
| EwayBill.KeepDigits | backend/app/utils/eway_bill_utils.py:62 | a character is kept exactly when it occurs in the input and is a digit, never lengthening the input |
| EwayBill.KeepDigitsSingle | backend/app/utils/eway_bill_utils.py:62 | a single character is kept exactly when it is a digit |
| EwayBill.KeepDigitsAppend | backend/app/utils/eway_bill_utils.py:62 | the digits of a concatenation are the digits of each part, in order |
| EwayBill.KeepDigitsOfDigits | backend/app/utils/eway_bill_utils.py:62 | a string of digits is kept whole |
| EwayBill.FormatHsnCode | backend/app/utils/eway_bill_utils.py:48-68 | a missing or empty code gives ""; otherwise the input's digits in order, left-padded with '0' to at least 4, digits only |
| EwayBill.FormatHsnIdempotent | backend/app/utils/eway_bill_utils.py:58-68 | formatting a formatted code changes nothing |
| EwayBill.StateCodeShape | backend/app/utils/eway_bill_utils.py:90-129 | a code is a key of the state table exactly when it is two digits from 01 to 38 |
| EwayBill.GetStateName | backend/app/utils/eway_bill_utils.py:132-142 | a code outside the table gives ""; a known code gives its non-empty state name |
| EwayBill.ValidateGstinMeaning | backend/app/utils/eway_bill_utils.py:145-169 | a GSTIN passes exactly when it has 15 characters and its first two are a state code 01..38; nothing else is checked |
| EwayBill.NormaliseVehicleNumber | backend/app/schemas/eway_bill.py:31-34 | for ASCII input, the normalised number has no lower-case letter, no surrounding blanks, and is no longer than the input |
| EwayBill.NormaliseIdempotent | backend/app/schemas/eway_bill.py:31-34 | normalising twice is normalising once |
| EwayBill.ValidateRequest | backend/app/schemas/eway_bill.py:9-34 | accepted exactly when the mode is Road/Rail/Air/Ship, the vehicle number has 1..20 characters, the distance is positive, the optional fields respect their maximum lengths and the vehicle type is absent, empty, Regular or ODC; the accepted request carries the normalised vehicle number; every refusal is a 422 |
| EwayBill.BlankVehicleNumberAccepted | backend/app/schemas/eway_bill.py:31-34 | a vehicle number of two spaces passes the length bound and is stored as "" |
| Payroll.FindRow | backend/app/routers/employees.py:186-189 | the position found holds a row for this user and date, and none is returned only when no row has that key |
| Payroll.UpsertKeepsUnique | backend/app/routers/employees.py:186-205 | updating the existing row or adding a new one keeps at most one attendance row per user and date |
| Payroll.UpsertStores | backend/app/routers/employees.py:191-205 | after the upsert the key holds exactly the submitted status, notes, overtime and bonus, and every row with another key is unchanged |
| Payroll.FindRowFirst | backend/app/routers/employees.py:186-189 | `.first()`: no row before the found one has the key |
| Payroll.MarkAllKeepsUnique | backend/app/routers/employees.py:179-205 | a whole bulk request keeps at most one row per user and date |
| Payroll.AttendanceTable.constructor | backend/app/routers/employees.py:172-178 | the table starts empty and valid |
| Payroll.AttendanceTable.MarkAttendance | backend/app/routers/employees.py:172-209 | the loop leaves the rows the bulk upsert specifies, skips users outside the company, counts the entries it stored, and keeps one row per user and date |
| Payroll.PresentDaysCounts | backend/app/routers/employees.py:334-338 | present days are the present rows plus half of the half-day rows; absence and leave add nothing |
| Payroll.OvertimePayIsRateTimesHours | backend/app/routers/employees.py:332-342 | the overtime pay is the hourly rate times the month's overtime hours |
| Payroll.CalculateSalary | backend/app/routers/employees.py:302-383 | 404 exactly when the employee is missing, of another company or without a profile; otherwise the slip of the month: days in the month, present days, base/days x present (monthly) or base x present (daily), overtime at base/30/8 per hour, bonuses, advances of the month, and payable = amount + overtime + bonus - advances |
| Payroll.AccumulateRecords | backend/app/routers/employees.py:327-345 | the loop's three running totals equal the present days, the overtime pay and the bonus total of the records |
| Payroll.FullMonthEarnsBase | backend/app/routers/employees.py:350-352 | a monthly employee present every day of the month earns exactly the base salary |
| Payroll.EarnedBasicRecoversCalculated | backend/app/routers/employees.py:460-461 | the slip PDF's back-calculated earned basic equals the calculated amount |
| Calendar.DaysInMonth | frontend/src/components/MonthlyAttendanceReport.jsx:40 | 28..31 days; February has 29 exactly in leap years; April, June, September and November have 30, the other months 31 |
| Calendar.JsWeekday | frontend/src/components/MonthlyAttendanceReport.jsx:57 | `getDay()`: a weekday number 0 (Sunday) to 6 |
| Calendar.JsWeekdayNext | frontend/src/components/MonthlyAttendanceReport.jsx:57 | the weekday of the next calendar day is one more, Saturday (6) wrapping to Sunday (0); with 1 January 1970 a Thursday (4, `JsWeekdayEpoch`) this fixes `getDay()` for every valid date |
| Calendar.DayNumberNext | frontend/src/components/MonthlyAttendanceReport.jsx:57 | the day count grows by exactly one from each valid date to the next, across month ends, February 28/29 and year ends |
| Calendar.NextDay | frontend/src/components/MonthlyAttendanceReport.jsx:57 | the next calendar day is a valid date strictly after the given one |
| Calendar.PreviousMonth | frontend/src/pages/employee/EmployeeDashboard.jsx:79-86 | January goes back to December of the previous year, any other month to the month before; the result is a valid month |
| Calendar.NextMonth | frontend/src/pages/employee/EmployeeDashboard.jsx:88-95 | December goes on to January of the next year, any other month to the month after; the result is a valid month |
| Calendar.FromMonthIndex | frontend/src/pages/employee/EmployeeDashboard.jsx:79-95 | every month count names exactly one valid month |
| Calendar.MonthIndexInjective | frontend/src/pages/employee/EmployeeDashboard.jsx:79-95 | two valid months with the same month count are the same month |
| Calendar.MonthNavigationInverse | frontend/src/pages/employee/EmployeeDashboard.jsx:79-95 | the previous and next month buttons undo each other and move the month count by exactly one |
| Calendar.MonthsBack | frontend/src/pages/client/ClientLedger.jsx:113-119 | going back k months lowers the month count by exactly k |
| Calendar.StartOfMonth | frontend/src/pages/client/ClientLedger.jsx:109-119 | a valid date on day 1 of the given month |
| Calendar.EndOfMonth | frontend/src/pages/client/ClientLedger.jsx:109-115 | a valid date on the last day of the given month |
| Calendar.NotAfterByMonthIndex | frontend/src/pages/client/ClientLedger.jsx:109-119 | a date in an earlier month is never after a date in a later month |
| AttendanceViews.BackendWeekday | frontend/src/components/MonthlyAttendanceReport.jsx:56-58 | the browser's weekday (0 = Sunday) maps to the backend's numbering (0 = Monday .. 6 = Sunday) so that the next backend day is the browser day |
| AttendanceViews.BackendWeekdayInjective | frontend/src/components/MonthlyAttendanceReport.jsx:58 | two browser weekdays never share a backend weekday |
| AttendanceViews.BackendWeekdaySurjective | frontend/src/components/MonthlyAttendanceReport.jsx:58 | every backend weekday 0..6 is reached |
| AttendanceViews.PaddedTwo | frontend/src/components/MonthlyAttendanceReport.jsx:44-46 | `padStart(2, "0")` of a month or day gives two digits that read back as the number |
| AttendanceViews.DateKeyParts | frontend/src/components/MonthlyAttendanceReport.jsx:44-46 | the date key is year, "-", two-digit month, "-", two-digit day |
| AttendanceViews.DateKeyInjective | frontend/src/components/MonthlyAttendanceReport.jsx:44-46 | different dates never share a key, so a record is looked up for its own day only |
| AttendanceViews.FindRecord | frontend/src/components/MonthlyAttendanceReport.jsx:47-49 | a found record is the first record of the user on that date, as `find` returns; none is found only when no record matches |
| AttendanceViews.GetStatusPriority | frontend/src/components/MonthlyAttendanceReport.jsx:43-62 | when a record is found the cell shows its status, whatever the holidays; with no record it shows "holiday" on a holiday date, then "weekend" on a weekly off day, else "-" |
| AttendanceViews.StatusLabel | frontend/src/components/MonthlyAttendanceReport.jsx:83-100 | present/absent/half_day/leave/holiday/weekend give P/A/HD/L/H/W, anything else "-" |
| AttendanceViews.StatusLabelDistinct | frontend/src/components/MonthlyAttendanceReport.jsx:83-100 | two statuses with the same label other than "-" are the same status |
| AttendanceViews.StatusCountBound | frontend/src/components/MonthlyAttendanceReport.jsx:102-110 | the four status counts add up to at most the number of records |
| AttendanceViews.StatsBounded | frontend/src/components/MonthlyAttendanceReport.jsx:102-110 | the user's four counts add up to at most the user's records |
| AttendanceViews.DaysArray | frontend/src/components/MonthlyAttendanceReport.jsx:40-41 | the columns are exactly the days 1..daysInMonth |
| AttendanceViews.CellStyleRules | frontend/src/pages/employee/EmployeeDashboard.jsx:160-205 | the holiday colour shows exactly on a named holiday not marked present or half day; the weekly-off colour exactly on an off day without holiday not marked present, half day or absent; a present day is always green |
| AttendanceViews.OvertimeBadge | frontend/src/pages/employee/EmployeeDashboard.jsx:217-219 | the "+h" badge shows exactly when the day's record has positive overtime, with that number |
| AttendanceViews.BuildAttendanceMap | frontend/src/pages/employee/EmployeeDashboard.jsx:110-123 | the loop leaves, for every day, the last record of that day |
| AttendanceViews.BuildHolidayMap | frontend/src/pages/employee/EmployeeDashboard.jsx:125-131 | the loop leaves, for every day, the name of the last holiday on that day |
| AttendanceViews.RenderCalendar | frontend/src/pages/employee/EmployeeDashboard.jsx:103-225 | `firstDay` blanks, then one cell per day of the month in order, each with the style, title and badge of that day |
| Payments.Pay | backend/app/routers/payment.py:49-50 | the allocation is added to the paid amount and the grand total is kept |
| Payments.PayStatus | backend/app/routers/payment.py:52-63 | after paying: PAID exactly when the paid amount reaches the grand total, PARTIAL exactly when it is between zero and the total, otherwise PENDING with a PAID or PARTIAL invoice status turned back to BILLED |
| Payments.Unpay | backend/app/routers/payment.py:155-156 | the allocation is taken back and the paid amount is clamped at zero |
| Payments.UnpayStatus | backend/app/routers/payment.py:155-166 | after a reversal the paid amount is never negative; PAID exactly when fully paid, PARTIAL exactly when partly paid, and a fully reversed invoice has no payment status and is BILLED |
| Payments.Stored | backend/app/routers/payment.py:37-47 | an allocation is recorded exactly when it is in the request and names an existing invoice |
| Payments.StoredInOrder | backend/app/routers/payment.py:37-47 | nothing is recorded for an empty request, and one more requested allocation is recorded after the earlier ones exactly when its invoice exists, so request order is kept |
| Payments.ApplyAllocations | backend/app/routers/payment.py:37-63 | applying allocations touches no invoice that did not exist |
| Payments.ReverseAllocations | backend/app/routers/payment.py:152-166 | reversing allocations touches no invoice that did not exist |
| Payments.ApplyAddsAllocated | backend/app/routers/payment.py:37-50 | each invoice's paid amount grows by exactly the sum allocated to it, and its grand total is kept |
| Payments.ApplyIgnoresMissing | backend/app/routers/payment.py:38-39 | allocations naming a missing invoice change nothing |
| Payments.ReverseSubtracts | backend/app/routers/payment.py:152-156 | a reversal subtracts the sum allocated to the invoice, as long as that much was paid |
| Payments.CreateThenDeleteRestoresPaid | backend/app/routers/payment.py:152-166 | when the invoice's paid amount and every allocation are non-negative, creating a payment and then deleting it gives that invoice back its previous paid amount |
| Payments.UpdatedFields | backend/app/routers/payment.py:129-131 | each of the seven fields keeps its value when the request leaves it out and takes the sent value (even null) when it is sent |
| Payments.EmptyUpdateChangesNothing | backend/app/routers/payment.py:129-131 | an update that sends no field leaves the payment unchanged |
| Payments.PaymentBook.constructor | backend/app/routers/payment.py:16-35 | a book over the given invoices with no payment |
| Payments.PaymentBook.CreatePayment | backend/app/routers/payment.py:16-67 | for fields whose NOT NULL columns are filled (the create schema requires them), a new payment id is recorded with the stored allocations, and the invoices become those the allocation loop produces |
| Payments.PaymentBook.DeletePayment | backend/app/routers/payment.py:138-170 | 404 exactly when the payment is missing or of another company, changing nothing; otherwise its allocations are reversed and it is removed |
| Payments.PaymentBook.UpdatePayment | backend/app/routers/payment.py:115-135 | 404 when the payment is missing or of another company; a null sent for a NOT NULL column (party, date, amount, type, mode) fails with 500 and nothing changes; otherwise only the sent fields change; stored payments never hold a null in a NOT NULL column |
| PaymentForm.MapSumRemove | frontend/src/pages/PaymentList.jsx:143-146 | the sum of an allocation map does not depend on which key is taken out first |
| PaymentForm.MapSumNonNegative | frontend/src/pages/PaymentList.jsx:143-146 | a map of non-negative allocations sums to a non-negative total |
| PaymentForm.GreedyKeys | frontend/src/pages/PaymentList.jsx:113-131 | auto-allocation only allocates to invoices of the pending list |
| PaymentForm.GreedyBounds | frontend/src/pages/PaymentList.jsx:121-128 | every allocated share is positive and at most that invoice's due; an invoice owing nothing gets none |
| PaymentForm.GreedySum | frontend/src/pages/PaymentList.jsx:114-128 | the shares never add up to more than the amount entered, nor to less than zero |
| PaymentForm.GreedyOldestFirst | frontend/src/pages/PaymentList.jsx:116-128 | oldest first: when a later invoice receives anything, every earlier owing invoice was paid its whole due |
| PaymentForm.GreedyCoversAll | frontend/src/pages/PaymentList.jsx:113-131 | an amount covering the total due pays every owing invoice exactly its due |
| PaymentForm.Dedupe | frontend/src/pages/PaymentList.jsx:93-102 | the merged list has each id once and offers every id of the input, taking only input invoices |
| PaymentForm.DedupeKeepsFirst | frontend/src/pages/PaymentList.jsx:97-101 | the first invoice of each id is the one kept |
| PaymentForm.SortKeepsUnique | frontend/src/pages/PaymentList.jsx:104-106 | sorting by invoice date keeps the ids distinct |
| PaymentForm.PendingListShape | frontend/src/pages/PaymentList.jsx:88-107 | the pending list has no id twice, offers every id of the edited payment's and the fetched invoices, only those invoices, ordered by invoice date |
| PaymentForm.ExtraWins | frontend/src/pages/PaymentList.jsx:93-101 | an invoice of the payment being edited wins over the fetched copy with the same id |
| PaymentForm.Toggled | frontend/src/pages/PaymentList.jsx:135-140 | a present non-zero allocation is removed; otherwise the invoice gets its whole due |
| PaymentForm.ToggleTwice | frontend/src/pages/PaymentList.jsx:135-140 | toggling twice restores the allocations when the invoice was untouched or held its due |
| PaymentForm.ToggleSum | frontend/src/pages/PaymentList.jsx:135-146 | a toggle moves the allocated total by exactly the amount removed or added |
| PaymentForm.SumValues | frontend/src/pages/PaymentList.jsx:143-146 | the loop's total is the sum of the map's values whatever the key order |
| PaymentForm.Entries | frontend/src/pages/PaymentList.jsx:222-225 | one allocation per map entry with its amount, in ascending invoice id |
| PaymentForm.Form.constructor | frontend/src/pages/PaymentList.jsx:44-57 | no payment being edited, no allocation, no pending invoice, and the default form (received, cash, today) |
| PaymentForm.Form.LoadPending | frontend/src/pages/PaymentList.jsx:88-107 | the pending list becomes the merged, de-duplicated list sorted by invoice date |
| PaymentForm.Form.AutoAllocate | frontend/src/pages/PaymentList.jsx:113-131 | the allocations become the oldest-first greedy shares of the entered amount |
| PaymentForm.Form.ToggleAllocation | frontend/src/pages/PaymentList.jsx:133-150 | the allocations are toggled and the amount becomes their sum |
| PaymentForm.Form.Submit | frontend/src/pages/PaymentList.jsx:212-228 | editing sends the form only; creating sends the form and one allocation per entry with its amount, in ascending invoice id |
| PaymentForm.AutoAllocatedRequest | frontend/src/pages/PaymentList.jsx:113-131 | an auto-allocated payment sends only positive shares, none above its invoice's due |
| ClientLedger.OpeningBalance | backend/app/routers/client_portal.py:365-388 | without a start date the statement opens at the party's opening balance; with one, prior non-cancelled invoices are added and prior received payments subtracted |
| ClientLedger.RunningBalances | backend/app/routers/client_portal.py:429-447 | one line per entry in order; each line's balance is the opening balance plus the debits minus the credits up to and including it, each balance follows from the previous one, and the closing balance is that of the last line (the opening balance when there are none) |
| ClientLedger.GetClientLedger | backend/app/routers/client_portal.py:325-450 | the statement opens at the opening balance and lists the merged invoice and payment entries in date order; each entry's running balance is the opening balance plus the debits minus the credits of the entries up to and including it (the previous balance plus its own debit minus its own credit), and the statement closes at the opening balance plus all debits minus all credits; a year id of 0 filters no year, as the truthiness test does |
| ClientLedger.StatementTotals | backend/app/routers/client_portal.py:336-416 | the statement's debits add up to the grand totals of the listed invoices and its credits to the amounts of the listed received payments |
| ClientLedger.StatementSources | backend/app/routers/client_portal.py:336-362 | every invoice line comes from a non-cancelled invoice of the party within the date and year filters, every payment line from a received payment of the party within them |
| ClientLedger.StatementOrdered | backend/app/routers/client_portal.py:421-427 | statement lines are in calendar order |
| ClientLedger.OpeningContinuity | backend/app/routers/client_portal.py:365-388 | a statement starting on a date opens at the party's opening balance plus the debits minus the credits that the open-ended statement of the same year lists before that date |
| ClientLedger.DashboardMatchesStatement | backend/app/routers/client_portal.py:80-109 | the dashboard balance is the unfiltered statement's closing balance plus the payments made out to the party |
| ClientLedger.YearNameShape | backend/app/routers/client_portal.py:47-50 | a year name is the start year, a hyphen and the end year's last two digits |
| ClientLedger.YearNameSuffixValue | backend/app/routers/client_portal.py:50 | the part after the hyphen reads back as the end year modulo 100 |
| ClientLedger.Stats | frontend/src/pages/client/ClientLedger.jsx:141-150 | the transaction count is the number of lines and the net change is the closing minus the opening balance |
| ClientLedger.NetChangeIsInvoicedMinusPaid | frontend/src/pages/client/ClientLedger.jsx:141-150 | for a statement whose closing balance is opening plus debits minus credits and whose lines are one-sided, the net change equals total invoiced minus total paid |
| ClientLedger.StatementOneSided | backend/app/routers/client_portal.py:393-413 | invoice lines carry no credit and payment lines no debit |
| ClientLedger.CsvRowFields | frontend/src/pages/client/ClientLedger.jsx:163-175 | a row whose reference and description hold no comma splits back into exactly its seven fields |
| ClientLedger.CsvHeaderFields | frontend/src/pages/client/ClientLedger.jsx:154-174 | the header line splits into the seven column names and holds no line break |
| ClientLedger.CsvLines | frontend/src/pages/client/ClientLedger.jsx:153-176 | the exported file is the header line followed by exactly one line per statement line, in order |
| ClientLedger.ApplyPreset | frontend/src/pages/client/ClientLedger.jsx:104-138 | an unknown preset changes nothing; "all" clears both dates; "this year" is 1 January to 31 December of today's year |
| ClientLedger.PresetRanges | frontend/src/pages/client/ClientLedger.jsx:108-124 | every dated preset runs from the first day of a month to the last day of a month, start not after end, and all but "last month" contain today |
| ClientLedger.LastThreeMonthsStart | frontend/src/pages/client/ClientLedger.jsx:117-119 | "last 3 months" starts on the first day of the month two months before today's |
| PublicChallan.FindChallan | backend/app/routers/public_challan.py:40-47 | the challan found carries the requested id; none is found only when no stored challan has it |
| PublicChallan.OpenChallan | backend/app/routers/public_challan.py:36-50 | a bad link is refused with 403 whatever is stored; with a good link the only failure is 404 for an unknown id, otherwise the challan with that id is opened |
| PublicChallan.EffectiveRate | backend/app/routers/public_challan.py:265-269 | the line's own positive rate wins, else the party-challan item's positive rate, else the item master's non-zero rate, and the rate is 0 exactly when none of the three applies |
| PublicChallan.SummaryRows | backend/app/routers/public_challan.py:264-293 | one summary row per line in order, with the quantity total and the amount total (quantity times effective plus party rate) over all lines |
| PublicChallan.UniqueNames | backend/app/routers/public_challan.py:295-301 | the names each once, in order of first occurrence |
| PublicChallan.Summarize | backend/app/routers/public_challan.py:226-313 | the summary rows, the totals, the total formatted in Indian grouping and the item names each once in order of first occurrence |
| PublicChallan.SummaryPage | backend/app/routers/public_challan.py:200-313 | 403 for a bad link, 404 for an unknown challan, otherwise the summary of that challan's lines: a row per line, the quantity and amount totals, the formatted amount total and the item names each once in order of first occurrence |
| PublicChallan.GroupLines | backend/app/routers/public_challan.py:59-87 | one group per key (the party-challan item's item id, else the line id), holding exactly that key's lines; the insertion order lists each key once, in order of first appearance |
| PublicChallan.GroupOfSums | backend/app/routers/public_challan.py:84-87 | a group's dispatch, ok, cr and mr quantities are the sums over the lines with its key |
| PublicChallan.GroupOfFirst | backend/app/routers/public_challan.py:66-68 | a group is described by the first line with its key |
| PublicChallan.GroupOfPcItems | backend/app/routers/public_challan.py:69-79 | a group's party-challan items are those of its lines, each once |
| PublicChallan.OrderCoversKeys | backend/app/routers/public_challan.py:59-91 | the key order lists every group key exactly once |
| PublicChallan.FiguresOf | backend/app/routers/public_challan.py:97-113 | opening and balance are never negative and opening is not below balance for a real dispatch; an unclamped balance is ordered minus delivered, an unclamped opening adds the dispatch back |
| PublicChallan.RowOf | backend/app/routers/public_challan.py:124-151 | a row's amount is the rate plus the party rate times the group's ok, cr and mr quantities |
| PublicChallan.GroupFigures | backend/app/routers/public_challan.py:97-113 | as FiguresOf, and a group without party-challan items shows zero opening and balance (corrected) |
| PublicChallan.DownloadRows | backend/app/routers/public_challan.py:93-152 | one row per group in the given order, each with its group's figures, never negative, opening not below balance for a real dispatch |
| PublicChallan.NameLeTotal | backend/app/routers/public_challan.py:91 | any two item names are ordered one way or the other by Python's string comparison |
| PublicChallan.NameLeTrans | backend/app/routers/public_challan.py:91 | Python's string comparison is transitive |
| PublicChallan.SortByName | backend/app/routers/public_challan.py:90-91 | the groups reordered (same multiset) into non-decreasing item-name order, a group without party-challan item sorting as the empty name |
| PublicChallan.Download | backend/app/routers/public_challan.py:26-152 | the download succeeds exactly when the link is good and the challan exists: 403 for a bad link, 404 for an unknown challan; otherwise the rows of the challan's groups, every group exactly once (no two rows share a key, and each key has its group's row), in item-name order, with the corrected figures of GroupFigures (a group without party-challan items shows zero opening and balance) |
| PublicChallan.RowsEachGroupOnce | backend/app/routers/public_challan.py:91-94 | iterating the sorted keys of the grouping dictionary visits every group exactly once: each key has its group's row and no two rows share a key |
| PublicChallan.FixedSplits | backend/app/routers/public_challan.py:237-240 | the two-decimal string splits on '.' into the signed rupees and the two paise digits |
| PublicChallan.JoinPairs | backend/app/routers/public_challan.py:252-257 | the loop yields the digits in groups of two from the right, joined by commas |
| PublicChallan.FormatIndianCurrency | backend/app/routers/public_challan.py:233-259 | the formatter's result is the corrected Indian grouping of the amount |
| PublicChallan.GroupDigitsRemoveCommas | backend/app/routers/public_challan.py:248-259 | deleting the inserted commas gives the digits back |
| PublicChallan.GroupDigitsShape | backend/app/routers/public_challan.py:248-259 | more than three digits become a leading group of one or two digits, groups of two, and a last group of three |
| PublicChallan.IndianCurrencyRemoveCommas | backend/app/routers/public_challan.py:233-259 | the corrected formatter only inserts commas into the two-decimal string |
| PublicChallan.IndianCurrencyShort | backend/app/routers/public_challan.py:242-243 | with at most three rupee digits the two-decimal string is returned unchanged |
| PublicChallan.AsWrittenAgreesWhenNonNegative | backend/app/routers/public_challan.py:233-259 | on amounts of zero or more the formatter as written equals the corrected one |
| PublicChallan.AsWrittenCommaAfterSign | backend/app/routers/public_challan.py:238-259 | as written, a negative amount whose rupees have an odd number (three or more) of digits starts "-," |
| PublicChallan.AsWrittenMinusHundred | backend/app/routers/public_challan.py:238-259 | as written, -100.00 is shown starting "-," |
| PublicChallan.FirstGroupWithoutPcItemFails | backend/app/routers/public_challan.py:97-151 | as written, a first group without party-challan items reads opening and balance before any assignment and fails |
| PublicChallan.LaterGroupWithoutPcItemShowsStaleFigures | backend/app/routers/public_challan.py:97-151 | as written, a later group without party-challan items shows the previous group's opening and balance |
| PartyChallans.ParseInt | backend/app/routers/party_challan.py:33 | on ASCII pieces, Python `int()` succeeds exactly when, after trimming blanks and one leading '+', what remains is a non-empty run of decimal digits |
| PartyChallans.NextNumber | backend/app/routers/party_challan.py:19-40 | the generated number is always "PC-" and a zero-padded number of at least 1 |
| PartyChallans.FormatNumberShape | backend/app/routers/party_challan.py:40 | a generated number is "PC-" followed by at least three digits whose value is the number |
| PartyChallans.NumberSuffixOfFormatted | backend/app/routers/party_challan.py:33-40 | reading back the part after the hyphen of a generated number gives the number it was generated from |
| PartyChallans.NextAfterGenerated | backend/app/routers/party_challan.py:31-40 | numbering continues from the latest generated number: PC-n is followed by PC-(n+1) |
| PartyChallans.NextNumberRestarts | backend/app/routers/party_challan.py:31-38 | with no latest challan, an empty number, or no integer after the first hyphen, numbering restarts at PC-001 |
| PartyChallans.NextNumberContinues | backend/app/routers/party_challan.py:31-34 | otherwise the next number is the parsed integer plus one |
| PartyChallans.Latest | backend/app/routers/party_challan.py:21-29 | the latest challan belongs to the company and year; there is none only when no challan does |
| PartyChallans.LatestHasLargestId | backend/app/routers/party_challan.py:27-28 | with ids increasing in creation order, the latest challan has the largest id of its company and year |
| PartyChallans.ChosenNumber | backend/app/routers/party_challan.py:50-67 | a non-empty manual number is used as given, otherwise the number generated from the latest challan |
| PartyChallans.Patch | backend/app/routers/party_challan.py:292-304 | each supplied header field replaces the stored one, every omitted field keeps its value, and id, company, year and number never change |
| PartyChallans.PatchNothing | backend/app/routers/party_challan.py:292-304 | an update that supplies nothing leaves the header unchanged |
| PartyChallans.ItemsOf | backend/app/routers/party_challan.py:433 | a challan's lines are exactly the stored item rows pointing at it |
| PartyChallans.WithoutChallan | backend/app/routers/party_challan.py:308-311 | the rows kept by the bulk delete are exactly those pointing at other challans |
| PartyChallans.FindIndex | backend/app/routers/party_challan.py:284-290 | the challan found has the id and the caller's company; none is found only when no challan has both |
| PartyChallans.NewItemRows | backend/app/routers/party_challan.py:93-102 | one new row per requested line, in order, with the line's item, process, ordered quantity and rate and nothing delivered |
| PartyChallans.PercentageBounds | backend/app/routers/party_challan.py:447 | a line delivered within its order shows a percentage between 0 and 100 |
| PartyChallans.OverallBounds | backend/app/routers/party_challan.py:450 | when no line is over-delivered the overall percentage lies between 0 and 100 |
| PartyChallans.FullyDeliveredIsHundred | backend/app/routers/party_challan.py:450 | a challan whose every line is fully delivered, with something ordered, shows 100% |
| PartyChallans.NothingDeliveredIsZero | backend/app/routers/party_challan.py:93-450 | a challan whose lines have delivered nothing, as created or replaced, shows 0% |
| PartyChallans.ItemsProgress | backend/app/routers/party_challan.py:429-450 | one progress row per line with its name (or "Unknown"), ordered, delivered, remaining and percentage, and the overall percentage over the totals |
| PartyChallans.PartyChallanStore.constructor | backend/app/routers/party_challan.py:44-110 | an empty store satisfies the store invariant (ids increase, every item row points at a stored challan) |
| PartyChallans.PartyChallanStore.Create | backend/app/routers/party_challan.py:44-110 | a manual number already used by the party in that company and year is refused with 400 and nothing changes; otherwise the challan is appended open and active with the chosen number and its lines are appended with nothing delivered; the store invariant is kept |
| PartyChallans.PartyChallanStore.Update | backend/app/routers/party_challan.py:278-327 | 404 and no change for an unknown challan; 500 and no change when lines are supplied while a delivery-challan line still refers to one of the challan's old lines (the foreign key refuses their deletion); otherwise the header is patched and, when lines are supplied, the challan's old lines are replaced by exactly the new ones while other challans' lines stay; the store invariant is kept |
| PartyChallans.PartyChallanStore.Delete | backend/app/routers/party_challan.py:374-409 | 404 for an unknown challan, 400 and no change while delivery challans link to it, 500 and no change while a delivery-challan line still refers to one of its lines, otherwise the challan and all its lines are removed; the store invariant is kept |
| PartyChallans.PartyChallanStore.DeliveryProgress | backend/app/routers/party_challan.py:413-458 | 404 for an unknown challan; otherwise one row per line of that challan, in order, with the item id, its name (or "Unknown"), the ordered, delivered and remaining quantities and the percentage, and the overall percentage over the totals |
| PartyChallans.CountLinks | backend/app/routers/party_challan.py:389-392 | the count of linked delivery challans is positive exactly when one links to the challan |
| PartyChallans.ItemsOfReplaced | backend/app/routers/party_challan.py:306-321 | after the replacement a challan's lines are exactly the new rows |
| JobWorkReports.SelectedLines | backend/app/routers/reports.py:33-48 | a line is selected exactly when it belongs to the company and is of the active year, or of another year with a challan neither completed nor cancelled |
| JobWorkReports.RegisterLines | backend/app/routers/reports.py:33-51 | the register's lines are exactly the selected ones, newest challan date first |
| JobWorkReports.RowOf | backend/app/routers/reports.py:56-73 | in and out are the ordered and delivered quantities; pending is their difference clamped at zero; the status is "Completed" exactly when nothing is left pending, otherwise "Pending"; a line of another year is flagged as opening balance |
| JobWorkReports.JobWorkReport | backend/app/routers/reports.py:22-75 | one register row per selected line, newest challan first |
| JobWorkReports.LedgerSpec | backend/app/routers/reports.py:117-142 | the ledger holds one entry per distinct (party, item) key, in order of first appearance, each the accumulation of that key's rows |
| JobWorkReports.EntryForSnoc | backend/app/routers/reports.py:118-142 | a row changes only its own key's entry |
| JobWorkReports.EntryForAbsent | backend/app/routers/reports.py:120-127 | a key with no rows yet has the all-zero entry the code creates |
| JobWorkReports.BalanceSplit | backend/app/routers/reports.py:136-142 | a key's balance is its opening plus the pending quantities of its rows in the period |
| JobWorkReports.LedgerNonNegative | backend/app/routers/reports.py:130-142 | with pending quantities never negative, opening is never negative and balance is never below opening |
| JobWorkReports.AfterIgnored | frontend/src/pages/Reports.jsx:414-463 | a row after the period's end changes no entry |
| JobWorkReports.AbsorbKeeps | backend/app/routers/reports.py:118-142 | one pass of the loop body keeps the map of entries and the key order in step with the rows read so far |
| JobWorkReports.Accumulate | backend/app/routers/reports.py:117-142 | after the loop the map and the key order describe all the rows |
| JobWorkReports.Aggregate | backend/app/routers/reports.py:117-150 | the loops produce exactly the ledger specification, entry by entry and in key order |
| JobWorkReports.BackendContribution | backend/app/routers/reports.py:119-142 | a line of another year contributes its clamped pending quantity as opening; a line of the active year contributes its in, out and pending quantities |
| JobWorkReports.LedgerLines | backend/app/routers/reports.py:95-114 | the ledger's lines are exactly the register's selection, narrowed to the party when a non-zero party id is given, oldest challan first |
| JobWorkReports.ForParty | backend/app/routers/reports.py:111-112 | exactly the lines of the given party |
| JobWorkReports.BackendLedgerNonNegative | backend/app/routers/reports.py:130-142 | in the backend ledger opening is never negative, balance is never below it, and balance is opening plus the period's pending quantities |
| JobWorkReports.SignedDataParts | backend/app/routers/reports.py:175-176 | the signed string splits on ':' back into the company id, the year id and the party value |
| JobWorkReports.IntToStringInjective | backend/app/routers/reports.py:176 | different integers have different decimal texts |
| JobWorkReports.SignedDataInjective | backend/app/routers/public_reports.py:41-45 | a link signed for one company, year and party verifies for no other parameters |
| JobWorkReports.PartyLedgerPdf | backend/app/routers/reports.py:78-181 | the report holds the ledger of the active year's selected lines and its link carries the token of "company:year:party or all" |
| JobWorkReports.PublicLedgerDownload | backend/app/routers/public_reports.py:27-118 | 403 for a token not made for these parameters, before any lookup; then 404 for an unknown company, then for an unknown year; it succeeds exactly when all three pass, with the same ledger as the authenticated report |
| JobWorkReports.RenderTwoDecimals | backend/app/routers/reports.py:146-150 | every rendered figure has exactly two digits after its one decimal point |
| JobWorkReports.HyphenKeysCollide | backend/app/routers/reports.py:119 | as written, the pairs ("A-B", "C") and ("A", "B-C") get the same text key |
| JobWorkReports.AsWrittenMergesPairs | backend/app/routers/reports.py:119-142 | two lines of those pairs share one text key as written, yet the ledger keyed by the pair keeps two entries |
| JobWorkReports.FrontContribution | frontend/src/pages/Reports.jsx:394-463 | a row before the start date counts as opening, a row up to the end date is in the period, a later row is ignored, each keyed by its (party, item) pair |
| JobWorkReports.PartyRows | frontend/src/pages/Reports.jsx:389-393 | with no party selected every row is kept, otherwise exactly the rows of the selected party |
| JobWorkReports.ActiveEntries | frontend/src/pages/Reports.jsx:466-468 | exactly the entries with a non-zero opening, in or out quantity are kept |
| JobWorkReports.FrontLedger | frontend/src/pages/Reports.jsx:378-469 | the page's ledger is the accumulation of the selected party's rows by date window, without the all-zero entries |
| JobWorkReports.FilteredData | frontend/src/pages/Reports.jsx:355-365 | a row is shown exactly when the search matches its party, item or challan number and the status filter is "all" or its status |
| JobWorkReports.EmptyFilterKeepsAll | frontend/src/pages/Reports.jsx:355-365 | an empty search with the "all" status shows every row |
| JobWorkReports.StatsOf | frontend/src/pages/Reports.jsx:367-372 | the job count is the row count, the pending and completed counts are the numbers of rows with that status (together never more than the job count), and the pending total sums the rows' pending quantities |
| JobWorkReports.StatsOfSnoc | frontend/src/pages/Reports.jsx:367-372 | one more row adds one job, one pending or completed job by its status, and its pending quantity to the total |
| JobWorkReports.PendingTotalOfReport | backend/app/routers/reports.py:56-70 | the register's pending quantities are clamped, so the page's pending total is never negative |
| JobWorkReports.AvailableParties | frontend/src/pages/Reports.jsx:375 | each party name of the rows once, and only those |
| JobWorkReports.DefaultEndDate | frontend/src/pages/Reports.jsx:61-73 | the default end is 31 March of this year in January to March and of next year otherwise, never before today |
| DeliveryChallanForm.EffectivePending | frontend/src/components/AddDeliveryChallanModal.jsx:167-173 | the usable pending quantity is never negative, never below the recorded pending minus what the form's rows already draw on that item, and equal to it when that is not negative |
| DeliveryChallanForm.EffectivePendingUnused | frontend/src/components/AddDeliveryChallanModal.jsx:167-173 | an item no row draws on offers its whole pending quantity (zero when that is negative) |
| DeliveryChallanForm.AddingUsesPending | frontend/src/components/AddDeliveryChallanModal.jsx:167-173 | adding a row on an item adds its total to the quantity used and makes the usable pending quantity the server pending minus the new usage, clamped at zero: the old usable pending minus the row's total while usage was within the pending, and still zero for a non-negative row once usage exceeded it |
| DeliveryChallanForm.FindPcItem | frontend/src/components/AddDeliveryChallanModal.jsx:176-186 | the item found is in one of the offered challans and has the requested id; none is found only when no offered challan lists it |
| DeliveryChallanForm.QtyChange | frontend/src/components/AddDeliveryChallanModal.jsx:202-211 | only the edited field changes (an empty input becomes 0) and the total is always OK + CR + MR |
| DeliveryChallanForm.AddCheck | frontend/src/components/AddDeliveryChallanModal.jsx:213-239 | a line is accepted exactly when an item and a party-challan item are chosen, the total is positive and within the pending quantity, and that party-challan item is not on the form yet |
| DeliveryChallanForm.PayloadOf | frontend/src/components/AddDeliveryChallanModal.jsx:337-343 | missing OK, CR or MR quantities are sent as 0, and the quantity sent is their sum when the line was kept consistent |
| DeliveryChallanForm.DeliveryChallanForm.constructor | frontend/src/components/AddDeliveryChallanModal.jsx:38-56 | a fresh form has no party, no rows and an empty current item, and satisfies the form invariant |
| DeliveryChallanForm.DeliveryChallanForm.PartyChange | frontend/src/components/AddDeliveryChallanModal.jsx:72-84 | the party is set and nothing else changes |
| DeliveryChallanForm.DeliveryChallanForm.ItemChange | frontend/src/components/AddDeliveryChallanModal.jsx:147-165 | choosing an item clears the chosen party-challan item and its limits, loads the offered challans only when a party and an item are chosen, and leaves nothing that could be added |
| DeliveryChallanForm.DeliveryChallanForm.ChallanItemChange | frontend/src/components/AddDeliveryChallanModal.jsx:176-199 | picking an offered party-challan item records its challan and process and makes its effective pending quantity the limit; an unknown id changes nothing |
| DeliveryChallanForm.DeliveryChallanForm.QtyInput | frontend/src/components/AddDeliveryChallanModal.jsx:202-211 | the current item becomes the quantity change of the old one; rows and offered challans stay |
| DeliveryChallanForm.DeliveryChallanForm.AddItem | frontend/src/components/AddDeliveryChallanModal.jsx:213-284 | a refused line changes nothing; an accepted one is appended after the existing rows, the current item is reset and the offered challans cleared; no party-challan item is ever on two rows and every row's total is positive, within its pending quantity and equal to OK + CR + MR |
| DeliveryChallanForm.DeliveryChallanForm.RemoveItemRow | frontend/src/components/AddDeliveryChallanModal.jsx:286-289 | only the row at the index is removed; an index out of range changes nothing |
| DeliveryChallanForm.DeliveryChallanForm.Submit | frontend/src/components/AddDeliveryChallanModal.jsx:317-345 | refused exactly when there is no party or no row; otherwise sent with the party, date, vehicle number and notes as entered and one request line per row whose quantity is positive and equal to OK + CR + MR |
| InvoiceForm.FindByItem | frontend/src/pages/InvoiceForm.jsx:158 | the pending row found has the requested item id; none only when no pending row has it |
| InvoiceForm.FindByDcItem | frontend/src/pages/InvoiceForm.jsx:178-180 | the pending row found has the requested delivery-challan item id; none only when no pending row has it |
| InvoiceForm.ItemSelect | frontend/src/pages/InvoiceForm.jsx:155-174 | choosing an item clears the chosen challan, quantity, rate and amount, keeps the GRN and billing quantity, and names the item only when it is pending |
| InvoiceForm.ChallanSelect | frontend/src/pages/InvoiceForm.jsx:177-203 | picking a pending challan line fills its challan, quantity, OK/CR/MR and rate, clears the GRN, bills OK + CR and prices that at the rate; an id that is not pending changes nothing |
| InvoiceForm.MrNotBilled | frontend/src/pages/InvoiceForm.jsx:184-198 | the MR quantity of a pending line never changes what is billed for it |
| InvoiceForm.AddCheck | frontend/src/pages/InvoiceForm.jsx:206-228 | fields are reported missing exactly when the item, the challan line, a non-zero quantity or the rate is missing; a line is accepted exactly when all are present and its challan line is not on the invoice yet |
| InvoiceForm.NewLine | frontend/src/pages/InvoiceForm.jsx:230-246 | the new line bills the billing quantity, not the challan total, and its amount is quantity times rate when it was priced on selection |
| InvoiceForm.PickThenAdd | frontend/src/pages/InvoiceForm.jsx:177-246 | a pending line picked and then added becomes an invoice line billing OK + CR at its rate |
| InvoiceForm.AppendKeepsValid | frontend/src/pages/InvoiceForm.jsx:206-266 | adding an accepted, priced line keeps every line a distinct chosen challan line priced at quantity times rate |
| InvoiceForm.RemoveKeepsValid | frontend/src/pages/InvoiceForm.jsx:270-273 | removing a line keeps that invariant |
| InvoiceForm.FilteredPending | frontend/src/pages/InvoiceForm.jsx:357-365 | a pending line is offered exactly when it is not already billed on the invoice |
| InvoiceForm.UniqueItems | frontend/src/pages/InvoiceForm.jsx:368-370 | the item picker lists each offered item once, as its first offered line |
| InvoiceForm.AvailableChallans | frontend/src/pages/InvoiceForm.jsx:373-375 | the challan picker offers exactly the offered lines of the chosen item |
| InvoiceForm.TotalsOf | frontend/src/pages/InvoiceForm.jsx:389-391 | the subtotal sums the line amounts; CGST and SGST are equal halves of GST, which is the subtotal times the rate over 100; the grand total is the subtotal plus both halves, and GST is not negative for a non-negative subtotal and rate |
| InvoiceForm.SubtotalIsBilledValue | frontend/src/pages/InvoiceForm.jsx:389 | for valid lines the subtotal equals the sum of quantity times rate |
| InvoiceForm.SubtotalAppend | frontend/src/pages/InvoiceForm.jsx:389 | adding a line raises the subtotal by its amount |
| InvoiceForm.DefaultInvoiceDate | frontend/src/pages/InvoiceForm.jsx:110-124 | without an active year the date is today; otherwise today moved into the year: today when inside it, else its start or end |
| InvoiceForm.InitialGstRate | frontend/src/pages/InvoiceForm.jsx:378-381 | the saved rate when there is one, otherwise 18 |
| InvoiceForm.InvoiceFormState.constructor | frontend/src/pages/InvoiceForm.jsx:34-66 | a fresh form has no party, lines or pending items, the default date and the initial GST rate |
| InvoiceForm.InvoiceFormState.SelectParty | frontend/src/pages/InvoiceForm.jsx:134-150 | the party's pending lines are loaded when a party is chosen and cleared otherwise |
| InvoiceForm.InvoiceFormState.SelectItem | frontend/src/pages/InvoiceForm.jsx:155-174 | the current line becomes the item selection of the old one |
| InvoiceForm.InvoiceFormState.SelectChallan | frontend/src/pages/InvoiceForm.jsx:177-203 | the current line becomes the challan selection of the old one |
| InvoiceForm.InvoiceFormState.AddItem | frontend/src/pages/InvoiceForm.jsx:206-268 | a refused line changes nothing; an accepted one is appended, the current line is reset and the subtotal rises by its amount |
| InvoiceForm.InvoiceFormState.RemoveItem | frontend/src/pages/InvoiceForm.jsx:270-273 | only the line at the index is removed; an index out of range changes nothing |
| InvoiceForm.InvoiceFormState.Submit | frontend/src/pages/InvoiceForm.jsx:275-336 | refused exactly when no party or no line is chosen; otherwise the notes as entered and one request line per invoice line, each a distinct chosen challan line |
| PartyChallanForm.AddCheck | frontend/src/components/AddPartyChallanModal.jsx:139-163 | a row without an item is refused first, then one without a positive quantity; a row is accepted exactly when it has an item, a positive quantity and an (item, process) pair not on the challan yet |
| PartyChallanForm.AddKeepsPairsUnique | frontend/src/components/AddPartyChallanModal.jsx:150-168 | appending an accepted row keeps the (item, process) pairs of the challan distinct |
| PartyChallanForm.RemoveKeepsPairsUnique | frontend/src/components/AddPartyChallanModal.jsx:246-249 | removing a row keeps the pairs distinct |
| PartyChallanForm.AddCheckAsWritten | frontend/src/components/AddPartyChallanModal.jsx:150-154 | the duplicate test as written compares ids with strict equality, so a number and the text of the same id differ |
| PartyChallanForm.AsWrittenAgreesOnTypedRows | frontend/src/components/AddPartyChallanModal.jsx:150-154 | when every id on the form came from a select, the strict test agrees with the intended one |
| PartyChallanForm.AsWrittenAddsLoadedPairAgain | frontend/src/components/AddPartyChallanModal.jsx:99-112 | a row loaded for editing (numeric id) and the same item picked again (text id) pass the strict test, so the pair is added twice |
| PartyChallanForm.PayloadLineOf | frontend/src/components/AddPartyChallanModal.jsx:212-217 | a request line carries the numeric item id and quantity, the process id only when one was chosen, and the rate |
| PartyChallanForm.PayloadLines | frontend/src/components/AddPartyChallanModal.jsx:212-217 | one request line per row, in order |
| PartyChallanForm.SubmitPayload | frontend/src/components/AddPartyChallanModal.jsx:178-218 | the request is built exactly when the trimmed number is not blank, a party is chosen, there are rows and every row has an item and a positive quantity; it carries the trimmed number, the numeric party id, the date and notes as entered and one line per row |
| PartyChallanForm.StockMap | frontend/src/components/AddPartyChallanModal.jsx:75-82 | the stock lookup holds exactly the listed items, each with the stock of its last row, a missing figure as 0 |
| PartyChallanForm.PartyItems | frontend/src/components/AddPartyChallanModal.jsx:262-265 | no items before a party is chosen; afterwards exactly the catalogue items of that party |
| PartyChallanForm.PartyChallanFormState.constructor | frontend/src/components/AddPartyChallanModal.jsx:38-52 | a new challan has no party, no rows, cleared inputs and today's date |
| PartyChallanForm.PartyChallanFormState.Edit | frontend/src/components/AddPartyChallanModal.jsx:99-118 | editing loads the stored number, party (as a number) and rows, with cleared inputs |
| PartyChallanForm.PartyChallanFormState.AddItem | frontend/src/components/AddPartyChallanModal.jsx:139-176 | a refused row changes nothing; an accepted one is appended and the inputs cleared; with the corrected duplicate test AddCheck (not the source's `===`, see Findings) the pairs stay distinct |
| PartyChallanForm.PartyChallanFormState.RemoveItemRow | frontend/src/components/AddPartyChallanModal.jsx:246-249 | only the row at the index is removed and the pairs stay distinct |
| PartyChallanForm.PartyChallanFormState.Submit | frontend/src/components/AddPartyChallanModal.jsx:178-218 | the form's current values give the request or the first validation message |
| Stock.Effect | backend/app/utils/stock.py:6-21 | a transaction of another company, year or item, or of a type other than IN and OUT, does not move the stock |
| Stock.CurrentStockSnoc | backend/app/utils/stock.py:6-21 | one more transaction changes an item's stock by its own effect alone: + its quantity for IN, − for OUT |
| Stock.CurrentStockAppend | backend/app/utils/stock.py:6-21 | the stock over two logs is the sum of the stock over each |
| Stock.NothingScopedIsZero | backend/app/utils/stock.py:7-21 | a log with nothing for the item gives a stock of 0, as the coalesced empty sums do |
| Stock.Outs | backend/app/routers/challan.py:47-56 | one OUT transaction per challan line, in order, referencing the challan |
| Stock.ItemsOf | backend/app/routers/challan.py:40-45 | one challan item per line, carrying its item and quantity |
| Stock.PlanLines | backend/app/routers/challan.py:31-56 | the lines pass exactly when each is covered by the stock its query sees; then one item and one OUT transaction per line, else 400 |
| Stock.PlanSnoc | backend/app/routers/challan.py:31-56 | planning one more line adds its item and its OUT transaction at the end |
| Stock.OutsAppend | backend/app/routers/challan.py:47-56 | the OUT transactions of two runs of lines are those of each, one after the other |
| Stock.FlushedChallanKeepsStock | backend/app/routers/challan.py:28-58 | when each stock query sees the OUT rows of earlier lines, an accepted challan leaves every item it draws on at zero or above |
| Stock.LastOf | backend/app/routers/challan.py:31-37 | the last line of an item on the challan is found, and no later line has that item |
| Stock.UnflushedLinesCanOversell | backend/app/routers/challan.py:31-37 | when the queries do not see the pending OUT rows, two lines of one item each within stock pass together and take it below zero |
| Stock.Books.constructor | backend/app/routers/challan.py:16-58 | the books start with the given transactions and no challans |
| Stock.Books.CreateChallan | backend/app/routers/challan.py:16-58 | the challan is created exactly when every line is covered, and then the challan, its items and its OUT transactions are all stored under a fresh id; otherwise 400 and nothing is stored; every item and challan transaction stays linked to a stored challan |
| EmployeeIds.RankBefore | backend/resequence_ids.py:32-38 | the number of a company's profiles before a position, at most that position |
| EmployeeIds.Resequenced | backend/resequence_ids.py:22-38 | renumbering keeps every profile's user and company and touches nothing else |
| EmployeeIds.ResequencedNumbering | backend/resequence_ids.py:26-38 | within a company, profiles in user order get the numbers 1, 2, … without gaps: a later profile gets a larger number, none above the company's head count |
| EmployeeIds.ResequenceIdempotent | backend/resequence_ids.py:32-38 | renumbering an already renumbered table changes nothing |
| EmployeeIds.CompanySumIsDiffCount | backend/resequence_ids.py:20-37 | the updates counted company by company add up to the profiles that changed |
| EmployeeIds.DiffCountZero | backend/resequence_ids.py:40-44 | no profile counted as changed exactly when the table is unchanged |
| EmployeeIds.NumberCompany | backend/resequence_ids.py:26-38 | one company's pass renumbers exactly its profiles and counts those whose number changed |
| EmployeeIds.Resequence | backend/resequence_ids.py:12-44 | the table becomes its renumbering, the count is the number of profiles changed, and it is committed exactly when something changed |
| EmployeeIds.Counter | backend/backfill_ids.py:20-36 | the counter of a company is never negative |
| EmployeeIds.Backfilled | backend/backfill_ids.py:23-36 | backfilling keeps user and company, leaves profiles without a company or with a number alone, and gives every profile of a company a non-zero number |
| EmployeeIds.Backfill | backend/backfill_ids.py:12-42 | the table becomes its backfill, the count is the number of profiles changed, and it is committed exactly when that is not zero |
| EmployeeIds.CounterMonotone | backend/backfill_ids.py:27-36 | a company's counter never goes down along the table |
| EmployeeIds.CounterIsLargestSoFar | backend/backfill_ids.py:27-36 | the counter is at least every number held or given in that company so far |
| EmployeeIds.GivenNumberIsNewSoFar | backend/backfill_ids.py:30-33 | a number given is above every number seen earlier in the company |
| EmployeeIds.BackfillCanDuplicate | backend/backfill_ids.py:30-36 | a profile without a number met before one of its company holding 1 is also given 1, so the company ends with 1 twice |
| EmployeeIds.MaxHeld | backend/backfill_ids.py:34-36 | at least every number held in the company before a position |
| EmployeeIds.BackfilledAboveAll | backend/backfill_ids.py:23-36 | the corrected backfill keeps user and company and the numbers already held, and numbers the rest of each company above every number it holds |
| EmployeeIds.MissingGrows | backend/backfill_ids.py:30-33 | the count of unnumbered profiles of a company grows along the table |
| EmployeeIds.AboveAllKeepsNumbersUnique | backend/backfill_ids.py:20-36 | when the held numbers of each company are distinct, the corrected backfill leaves all numbers in each company distinct and non-zero |
| FinancialYears.Deactivated | backend/app/services/financial_year_service.py:17-23 | every year of the company loses its active flag; other companies' years are untouched |
| FinancialYears.FindYear | backend/app/services/financial_year_service.py:96-102 | finds a year with that id in that company, and nothing only when there is none |
| FinancialYears.ActiveYear | backend/app/services/financial_year_service.py:43-59 | an active year of the company, or 404 exactly when it has none |
| FinancialYears.ActiveYearIsTheOnlyOne | backend/app/services/financial_year_service.py:43-59 | with at most one active year per company, the active year found is that one |
| FinancialYears.FinancialYearBook.constructor | backend/app/services/financial_year_service.py:10-37 | no years at the start, and the invariants hold: at most one active year per company, none active and locked, distinct ids |
| FinancialYears.FinancialYearBook.Create | backend/app/services/financial_year_service.py:10-37 | the company's other years are deactivated and the new year is added active and unlocked, becoming the company's active year |
| FinancialYears.FinancialYearBook.GetActive | backend/app/services/financial_year_service.py:43-59 | an error exactly when the company has no active year |
| FinancialYears.FinancialYearBook.ListAll | backend/app/services/financial_year_service.py:65-85 | exactly the company's years, latest start date first |
| FinancialYears.YearsByStart | backend/app/services/financial_year_service.py:69-74 | exactly the company's years, ordered by start date descending |
| FinancialYears.FinancialYearBook.Activate | backend/app/services/financial_year_service.py:91-117 | 404 for a year not in the company, 400 for a locked one, both changing nothing; otherwise the company's years are deactivated and this one becomes its only active year |
| FinancialYears.FinancialYearBook.Lock | backend/app/services/financial_year_service.py:123-144 | 404 when missing, 400 when already locked, both changing nothing; otherwise only that year changes, to locked and inactive |
| FinancialYears.FinancialYearBook.Delete | backend/app/services/financial_year_service.py:150-172 | 404 when missing, 400 for an active or a locked year, both changing nothing; otherwise only that year is removed |
| FinancialYears.RemoveKeepsValid | backend/app/services/financial_year_service.py:169-170 | removing a year keeps ids distinct and at most one active, never active-and-locked year per company |
| FinancialYears.SaveCheck | frontend/src/components/AddFinancialYearModal.jsx:30-54 | the dates are saved exactly when both are given, the end is after the start and no year has exactly these dates |
| FinancialYears.SelectShownActivates | frontend/src/components/AddFinancialYearModal.jsx:163-183 | a year the dialog offers to select is found by the backend and is not locked, so activating it succeeds |
| FinancialYears.DeleteShownOnActiveIsRefused | frontend/src/components/AddFinancialYearModal.jsx:187-193 | the delete button shows on the active year too, and that year is one the backend finds and refuses to delete |
| Backups.Padded | backend/app/services/backup_service.py:72 | a timestamp field is all digits, at least its width long, with no dot |
| Backups.Timestamp | backend/app/services/backup_service.py:72 | the timestamp holds no dot, so the only dot of a backup name is the one before its extension |
| Backups.Extension | backend/app/services/backup_service.py:74 | the extension is "dump" exactly for the custom format; any other format gives "sql" |
| Backups.BackupName | backend/app/services/backup_service.py:72-75 | the name starts with "auto_" exactly for automatic backups and ends in ".dump" exactly for the custom format, else in ".sql" |
| Backups.ReplaceSkipsDotless | backend/app/services/backup_service.py:127 | replacing a pattern that starts with a dot leaves a dot-free prefix unchanged |
| Backups.ReplaceWhole | backend/app/services/backup_service.py:127 | replacing a string that is exactly the pattern gives the replacement |
| Backups.EncryptedBackupName | backend/app/services/backup_service.py:127 | an encrypted backup is named with ".enc" in place of its extension, for both formats |
| Backups.SaltOf | backend/app/services/backup_service.py:160 | the salt is the first 16 bytes, or the whole file when it is shorter |
| Backups.CiphertextOf | backend/app/services/backup_service.py:160-161 | salt followed by ciphertext gives back the file |
| Backups.SealedSplits | backend/app/services/backup_service.py:130-132 | a file written as salt then token splits back into that salt and that token |
| Backups.Decrypt | backend/app/services/backup_service.py:149-177 | a missing file fails; otherwise it succeeds exactly when the token opens under the key from the stored salt, giving the opened data at the decrypted path |
| Backups.EncryptDecryptRoundTrip | backend/app/services/backup_service.py:117-175 | what an encrypted backup sealed with its salt decrypts to the original dump |
| Backups.RestoreOutcome | backend/app/services/backup_service.py:217-227 | a restore fails exactly when the tool exits non-zero and its error output mentions "fatal" or "error" in any case |
| Backups.ReplaceFinalEnc | backend/app/services/backup_service.py:172 | in a dot-free name ending ".enc", the replacement touches only that suffix |
| Backups.NotDumpEnc | backend/app/services/backup_service.py:170 | a dot-free name plus ".enc" does not end in ".dump.enc" |
| Backups.DecryptedPlainName | backend/app/services/backup_service.py:169-172 | a decrypted "name.enc" is written as "name.sql" |
| Backups.DecryptedDumpName | backend/app/services/backup_service.py:169-172 | a decrypted "name.dump.enc" is written as "name.dump.dump" |
| Backups.DecryptedSqlName | backend/app/services/backup_service.py:169-172 | a decrypted "name.sql.enc" is written as "name.sql.sql" |
| Backups.NotDumpSuffix | backend/app/services/backup_service.py:189 | a path whose last character is not 'p' does not end in ".dump", so a ".sql" file goes to psql |
| Backups.DotlessUpload | backend/app/routers/backup.py:86 | the upload prefix adds no dot |
| Backups.EncryptedDumpRestoredAsScript | backend/app/services/backup_service.py:127-189 | an encrypted custom-format backup, once uploaded and decrypted, ends in ".sql" and is restored with psql rather than pg_restore |
| Backups.UploadOfKept | backend/app/routers/backup.py:86 | the upload of a name that keeps its extension ends in ".dump.enc" or ".sql.enc" |
| Backups.KeptExtensionRestoresRightTool | backend/app/services/backup_service.py:168-191 | when the encrypted name keeps the original extension, the restored file goes to pg_restore exactly for the custom format |
| Backups.Entries | backend/app/services/backup_service.py:230-242 | exactly the .sql, .enc and .dump files are listed, each with its name, size, time and whether it ends in ".enc" |
| Backups.Listing | backend/app/services/backup_service.py:229-245 | the listing is a reordering of those entries, newest first |
| Backups.ListingEntries | backend/app/services/backup_service.py:229-245 | an entry is listed exactly when it comes from a backup file, and it is marked encrypted exactly when its name ends in ".enc" |
| Backups.Without | backend/app/services/backup_service.py:247-252 | removing names keeps exactly the files with other names, and names stay unique |
| Backups.WithoutTwice | backend/app/services/backup_service.py:261-263 | deleting one set of names and then another equals deleting both at once |
| Backups.Put | backend/app/services/backup_service.py:131-132 | writing a file replaces one of the same name or adds it; the other files and the uniqueness of names are kept |
| Backups.AutoEntries | backend/app/services/backup_service.py:259 | exactly the listed entries whose names start with "auto_" |
| Backups.AutoEntriesKeepOrder | backend/app/services/backup_service.py:258-259 | the automatic entries stay newest first |
| Backups.Victims | backend/app/services/backup_service.py:261-263 | pruning deletes as many automatic backups as exceed seven, and none when there are at most seven |
| Backups.FileNames | backend/app/services/backup_service.py:262-263 | the names of the entries to delete |
| Backups.VictimsAreOldestAutos | backend/app/services/backup_service.py:254-263 | every backup pruning deletes is automatic and no newer than any of the seven it keeps |
| Backups.PruneSparesManual | backend/app/services/backup_service.py:254-263 | pruning never deletes a file whose name does not start with "auto_" |
| Backups.BackupStore.constructor | backend/app/services/backup_service.py:20-24 | the store starts with the files already in the directory |
| Backups.BackupStore.List | backend/app/services/backup_service.py:229-245 | the current backup files, newest first |
| Backups.BackupStore.Delete | backend/app/services/backup_service.py:247-252 | true exactly when a file of that name existed, and then only that file is removed; otherwise nothing changes |
| Backups.BackupStore.Prune | backend/app/services/backup_service.py:254-263 | the directory loses exactly the automatic backups after the seventh newest |
| Backups.BackupStore.Create | backend/app/services/backup_service.py:65-147 | a failed dump writes nothing; an empty one leaves its empty file and returns nothing; otherwise the dump is stored, or with a password replaced by the salted token under ".enc", and an automatic backup then prunes |
| Backups.NothingToRemoveAny | backend/app/services/backup_service.py:249-252 | deleting names no file has changes nothing |
| Backups.EncryptedNameIsNew | backend/app/services/backup_service.py:127-135 | the encrypted name differs from the plain one, so removing the plain file keeps the encrypted one |
| Permissions.RoleCodes | backend/app/services/permission_service.py:81-89 | exactly the codes the role is granted |
| Permissions.UserPermissions | backend/app/services/permission_service.py:16-33 | a super admin gets the wildcard alone, a user without a role nothing, anyone else exactly the codes of their role |
| Permissions.HasPermissionCases | backend/app/services/permission_service.py:36-56 | a super admin holds every code; anyone else holds a code exactly when they have a role and it is among their permissions |
| Permissions.HasAnyPermission | backend/app/services/permission_service.py:59-67 | true exactly when the user has a role and holds at least one of the codes, the role test coming before the super-admin rule |
| Permissions.HasAllPermissions | backend/app/services/permission_service.py:70-78 | true exactly when the user has a role and holds every one of the codes |
| Permissions.SuperAdminWithoutRoleRefusedAny | backend/app/services/permission_service.py:39-62 | a super admin without a role passes the single check yet fails the any-of check of that same code |
| Permissions.HasAnyPermissionAdminFirst | backend/app/services/permission_service.py:59-67 | with the super-admin rule first: true exactly when the user is a super admin or has a role, and holds one of the codes |
| Permissions.AdminFirstAnyOfOne | backend/app/services/permission_service.py:36-67 | with that order, the any-of check of one code is the single check |
| Permissions.UiSingleCode | frontend/src/hooks/usePermissions.jsx:36-52 | in the hook, any-of and all-of a single code are the single check |
| Permissions.UiEmptyCodes | frontend/src/hooks/usePermissions.jsx:40-52 | all-of no codes passes; any-of no codes passes only with the wildcard |
| Permissions.UiAnyIsSomeSingle | frontend/src/hooks/usePermissions.jsx:36-52 | any-of is the wildcard or some single check; all-of is the wildcard or every single check |
| Permissions.UiFailedLoadDenies | frontend/src/hooks/usePermissions.jsx:19-30 | after a failed load the list is empty and every single and any-of check fails |
| Permissions.MyPermissions | backend/app/routers/roles.py:264-278 | a super admin receives every permission of the catalogue, a user without a role nothing, anyone else exactly the codes of their role |
| Permissions.UiAgreesWithBackend | frontend/src/hooks/usePermissions.jsx:19-38 | on the list `get_my_permissions` sends, with no permission spelled "*", the hook's single check gives the backend's answer for every catalogue code and for any code when the user is not a super admin; for a super admin the hook admits exactly the catalogue codes |
| Roles.Remove | frontend/src/pages/RoleManagement.jsx:150 | every occurrence of the id goes and nothing else; ids stay distinct |
| Roles.RemoveAbsent | frontend/src/pages/RoleManagement.jsx:150 | removing an id that is not selected leaves the selection as it was |
| Roles.TogglePermission | frontend/src/pages/RoleManagement.jsx:146-153 | a selected permission is dropped, an unselected one appended; no other id changes and ids stay distinct |
| Roles.ToggleTwice | frontend/src/pages/RoleManagement.jsx:146-153 | toggling the same permission twice gives back the same ids, and the very same list when it started unselected |
| Roles.RemoveAll | frontend/src/pages/RoleManagement.jsx:164 | exactly the selected ids outside the module remain |
| Roles.ToggleModule | frontend/src/pages/RoleManagement.jsx:155-167 | when every permission of the module is selected they are all cleared; otherwise they are all added, without repeats; ids outside the module are untouched |
| Roles.ToggleModuleTwiceClears | frontend/src/pages/RoleManagement.jsx:155-167 | a module toggled on and then again ends with none of its permissions and the others as they were |
| Roles.OfModule | frontend/src/pages/RoleManagement.jsx:170-177 | exactly the permissions of that module |
| Roles.NoneOfModule | frontend/src/pages/RoleManagement.jsx:170-177 | a module no permission names has an empty group |
| Roles.GroupByModule | frontend/src/pages/RoleManagement.jsx:170-177 | one group per module some permission names, holding exactly its permissions in catalogue order |
| Roles.GroupsPartition | frontend/src/pages/RoleManagement.jsx:170-177 | each permission sits in its own module's group and in no other |
| Roles.GroupKeepsOrder | frontend/src/pages/RoleManagement.jsx:170-177 | within a group permissions keep their catalogue order |
| Roles.RoleExpansion.constructor | frontend/src/pages/RoleManagement.jsx:37-40 | nothing expanded and nothing cached |
| Roles.RoleExpansion.Toggle | frontend/src/pages/RoleManagement.jsx:42-63 | the expanded role collapses; any other role expands and is fetched exactly when it is not cached, a successful fetch being cached and a failed one leaving the cache as it was |
| Roles.CachedRoleNotRefetched | frontend/src/pages/RoleManagement.jsx:42-63 | expanding, collapsing and expanding a role fetches its permissions only the first time |
| Users.AssignOptions | frontend/src/pages/UserManagement.jsx:288-290 | the per-user role select offers exactly the roles not named "Super Admin" |
| Users.CreateOptions | frontend/src/pages/UserManagement.jsx:543-547 | the create dialog offers exactly the roles named neither "Super Admin" nor "Employee" |
| Users.CreateOptionsAreAssignable | frontend/src/pages/UserManagement.jsx:288-290 | every role offered on creation is also offered for assignment |
| Users.FindRole | frontend/src/pages/UserManagement.jsx:87-89 | a role with that id, or nothing only when none has it |
| Users.WithRole | frontend/src/pages/UserManagement.jsx:81-93 | only the saved user's row changes, to the new role id and that role's name; the other rows stay |
| Users.UserRoleEditor.constructor | frontend/src/pages/UserManagement.jsx:31-60 | the loaded users and roles with no pending change |
| Users.UserRoleEditor.PickRole | frontend/src/pages/UserManagement.jsx:62-67 | the picked role becomes the user's pending change, and the user shows as changed |
| Users.UserRoleEditor.SaveRole | frontend/src/pages/UserManagement.jsx:69-107 | refused, changing nothing, when no role was picked or the request fails; otherwise the user's row gets the role and only that user's pending change is cleared |
| Users.SaveKeepsOtherChanges | frontend/src/pages/UserManagement.jsx:96-100 | clearing one user's pending change keeps every other user's |
| Users.CreateCheck | frontend/src/pages/UserManagement.jsx:399-423 | the new user is sent exactly when name, email, password and role are all filled and the password has at least six UTF-16 code units, as JavaScript's `length` counts |
| Users.BuildUpdates | frontend/src/pages/UserManagement.jsx:605-611 | the payload holds exactly the changed fields with their new values, and the password when one was typed; it is empty exactly when nothing differs |
| Users.EditSubmit | frontend/src/pages/UserManagement.jsx:602-629 | "No changes to save" when nothing differs; refused when a new password is shorter than six UTF-16 code units; otherwise the non-empty payload of changed fields |
| Users.UnchangedEditWithoutEmailIsSent | frontend/src/pages/UserManagement.jsx:593-621 | for a user without an email, saving the dialog untouched sends an empty email instead of reporting no changes |
| Users.UpdatesAgainstShown | frontend/src/pages/UserManagement.jsx:593-611 | the corrected payload compares the email with the one the dialog showed |
| Users.UntouchedEditHasNoUpdates | frontend/src/pages/UserManagement.jsx:593-616 | compared that way, saving an untouched dialog always reports that nothing changed |
| ClientSettings.CountMet | frontend/src/pages/client/ClientSettings.jsx:322-327 | the strength counts the criteria met: between none and all, none exactly when no criterion holds, all exactly when every one does |
| ClientSettings.Label | frontend/src/pages/client/ClientSettings.jsx:329-335 | at most 2 is "Weak", 3 "Fair", 4 "Good", 5 or more "Strong" |
| ClientSettings.PasswordStrength | frontend/src/pages/client/ClientSettings.jsx:319-336 | an empty password scores 0 with no label; any other scores one point for each of length 8, length 12 (in UTF-16 code units), both cases, a digit and a symbol, at most 5, with its label |
| ClientSettings.MeetsAfterAppend | frontend/src/pages/client/ClientSettings.jsx:322-327 | a criterion a password meets stays met when a character is typed after it |
| ClientSettings.AppendNeverWeakens | frontend/src/pages/client/ClientSettings.jsx:319-327 | typing one more character never lowers the strength |
| ClientSettings.StrongExists | frontend/src/pages/client/ClientSettings.jsx:322-335 | a password meeting all five criteria exists |
| ClientSettings.MatchFlagsExclusive | frontend/src/pages/client/ClientSettings.jsx:339-346 | the match and mismatch hints never show together, and once both fields are filled exactly one shows |
| ClientSettings.SubmitCheck | frontend/src/pages/client/ClientSettings.jsx:348-358 | the password is sent exactly when the two fields agree and it has at least 8 UTF-16 code units; a mismatch is reported first |
| ClientSettings.SubmittedMatchesAndScores | frontend/src/pages/client/ClientSettings.jsx:319-358 | a password the form sends shows the match hint and scores at least one point |
| Subscription.Enforce | backend/app/core/subscription_guard.py:11-43 | a super admin always passes; anyone else passes exactly when their company exists, is active and its window covers today, both ends included; every refusal is 403 |
| Subscription.DisabledBeforeDates | backend/app/core/subscription_guard.py:23-35 | a missing company is reported as missing and a disabled one as disabled, whatever its dates |
| Subscription.EnforceIsLocal | backend/app/core/subscription_guard.py:19-41 | whether a user passes does not depend on any other company |
| Subscription.CeilDiv | frontend/src/components/SubscriptionCard.jsx:25 | the ceiling of a quotient: the least whole number of days covering the span |
| Subscription.DaysUntil | frontend/src/components/SubscriptionCard.jsx:24-25 | the days remaining are the ceiling of the span in days |
| Subscription.DaysNegativeIff | frontend/src/components/SubscriptionCard.jsx:24-28 | the count is negative exactly when the end lies a full day or more behind, and between 0 and 7 exactly when it lies within the next seven days |
| Subscription.Clamp | frontend/src/components/SubscriptionCard.jsx:35-38 | the value held between 0 and 100 |
| Subscription.ProgressAsWritten | frontend/src/components/SubscriptionCard.jsx:31-38 | the progress is NaN exactly when the window and the elapsed days are both 0, and otherwise lies between 0 and 100 |
| Subscription.SubscriptionCard | frontend/src/components/SubscriptionCard.jsx:19-38 | the card is expired exactly when the days remaining are negative and warns exactly when they are 0 to 7, never both; the days shown are never negative and equal the days remaining when those are; the total days are the ceiling of the window in days; the progress is the written formula on the elapsed days, elapsed over total times 100 inside the window, and a number between 0 and 100 whenever it is one |
| Subscription.CardFlags | frontend/src/components/SubscriptionCard.jsx:24-28 | the card says expired once the end is a full day behind, and warns in the seven days before |
| Subscription.SameInstantProgressIsNaN | frontend/src/components/SubscriptionCard.jsx:31-38 | a window that starts and ends at the current instant gives a NaN progress |
| Subscription.Progress | frontend/src/components/SubscriptionCard.jsx:31-38 | the corrected progress lies between 0 and 100, is elapsed over total for a positive window, and is 100 for an empty or reversed one |
| Subscription.ProgressAgrees | frontend/src/components/SubscriptionCard.jsx:35-38 | for a positive window the corrected and the written progress agree |
| Subscription.TrimmedNonEmptyFeatures | frontend/src/pages/SuperAdminDashboard.jsx:1491-1494 | the features kept are trimmed and not empty, and hold no comma when the pieces had none |
| Subscription.ParseFeatures | frontend/src/pages/SuperAdminDashboard.jsx:1491-1494 | every parsed feature is non-empty, trimmed and free of commas |
| Subscription.JoinSpaced | frontend/src/pages/SuperAdminDashboard.jsx:1580 | joining with ", " is joining with "," pieces that start with a space after the first |
| Subscription.JoinPrefixAll | frontend/src/pages/SuperAdminDashboard.jsx:1580 | a two-part separator in front of a joined list equals its first part in front of the pieces carrying its second part |
| Subscription.TrimSpaced | frontend/src/pages/SuperAdminDashboard.jsx:1591-1594 | trimming those pieces gives the features back |
| Subscription.TrimPrefixed | frontend/src/pages/SuperAdminDashboard.jsx:1591-1594 | trimming features with one leading space gives them back |
| Subscription.FeaturesRoundTrip | frontend/src/pages/SuperAdminDashboard.jsx:1580-1594 | a plan's well-formed features shown in the edit form and saved unchanged come back the same |
| Subscription.FeaturesStable | frontend/src/pages/SuperAdminDashboard.jsx:1491-1594 | after one save, editing and saving again changes nothing |
| Subscription.ExpiryClass | frontend/src/pages/SuperAdminDashboard.jsx:958-967 | red exactly when expired, amber for 0 to 7 days, yellow for 8 to 30, grey beyond |
| Subscription.ExpiryMatchesCard | frontend/src/pages/SuperAdminDashboard.jsx:954-967 | the dashboard's red and amber agree with the client card's expired and warning flags |
| Subscription.Extend | frontend/src/pages/SuperAdminDashboard.jsx:1264-1274 | in plan mode with a plan chosen the plan alone is sent; otherwise the new end lies the custom number of days after the current end |
| Subscription.CustomExtensionExtends | frontend/src/pages/SuperAdminDashboard.jsx:1335-1345 | every length the select offers moves the end later |
| Subscription.Round | frontend/src/pages/SuperAdminDashboard.jsx:482 | the rounded value lies within half of the quotient, halves going up |
| Subscription.Arpu | frontend/src/pages/SuperAdminDashboard.jsx:481-483 | the average is shown exactly when there are users, as the rounded revenue per user |
| Subscription.ArpuWithinHalf | frontend/src/pages/SuperAdminDashboard.jsx:481-483 | the shown average is within half a rupee of the true one |
| Subscription.UsageWidth | frontend/src/pages/SuperAdminDashboard.jsx:626 | the bar is at least 10% wide, and above that it is the count over the busiest company's count |
| Subscription.TopCompanyFullWidth | frontend/src/pages/SuperAdminDashboard.jsx:626 | the busiest company fills the bar |
| Subscription.NewCompanyPlanId | frontend/src/pages/SuperAdminDashboard.jsx:1071-1076 | a new company carries the chosen plan's id, or null when none is chosen |
| Expenses.ListExpenses | backend/app/routers/expense.py:26-39 | exactly the company's rows of the active year with the asked recurring flag, inside the optional date bounds and category, each kept once, newest date first |
| Expenses.DefaultListingHasNoTemplates | backend/app/routers/expense.py:21-30 | without query parameters the listing holds no recurring template |
| Expenses.ExpenseStats | backend/app/routers/expense.py:61-86 | all three figures are 0 when no row of the company and year is a real expense; the count never exceeds the number of rows |
| Expenses.StatsAreQuerySums | backend/app/routers/expense.py:61-86 | the count is the number of non-recurring rows of the company and year, the total their amounts' sum, and this month's figure the sum over those dated from the first of the month |
| Expenses.StatsIgnoreTemplates | backend/app/routers/expense.py:62-80 | adding a recurring template changes none of the three figures |
| Expenses.MonthWithinTotal | backend/app/routers/expense.py:62-80 | with non-negative amounts, this month's sum lies between 0 and the year's total |
| Expenses.CreateAddsToStats | backend/app/routers/expense.py:88-112 | a created non-template expense adds one to the count, its amount to the total, and its amount to this month's sum exactly when it is dated on or after the first of the month |
| Expenses.Current | backend/app/routers/expense.py:125-126 | reading a field gives an assignment to that same field |
| Expenses.Apply | backend/app/routers/expense.py:125-126 | for a storable assignment (not a null date), after one setattr the field holds the new value, every other field and the ids are unchanged |
| Expenses.SameFieldsSameExpense | backend/app/routers/expense.py:125-126 | two rows with the same ids and every field equal are the same row |
| Expenses.ResendingValuesChangesNothing | backend/app/routers/expense.py:125-126 | an update that sends each of its fields with the value the row already has leaves the row as it was |
| Expenses.UpdateIdempotent | backend/app/routers/expense.py:125-126 | applying the same update a second time changes nothing more |
| Expenses.SetFields | backend/app/routers/expense.py:125-126 | for a request without a null date, every field the request set takes its value and every field it did not set keeps the old one |
| Expenses.Find | backend/app/routers/expense.py:121-123 | finds a row with that id of that company (and a template when asked), and nothing exactly when there is none |
| Expenses.Posted | backend/app/routers/expense.py:170-181 | the posted expense copies the template's company, year, party, category, amount and payment method, is dated today, is not recurring and is PAID |
| Expenses.Advanced | backend/app/routers/expense.py:183-189 | a Monthly template with a due date moves it 30 days on; any other template is unchanged; no other field changes |
| Expenses.ExpenseBook.constructor | backend/app/routers/expense.py:88-112 | an empty book with unique ids |
| Expenses.ExpenseBook.Create | backend/app/routers/expense.py:88-112 | an amount that is not positive is refused with 422 and nothing is stored (backend/app/schemas/expense.py, `amount_must_be_positive`); otherwise the request's fields are stored under the caller's company and active year with a fresh id, appended to the book |
| Expenses.ExpenseBook.Delete | backend/app/routers/expense.py:136-148 | 404 "Expense not found" exactly when the company owns no such row, changing nothing; otherwise only that row is removed |
| Expenses.ExpenseBook.Update | backend/app/routers/expense.py:114-134 | a body without category or amount (both required by the update schema) is refused with 422; then 404 when the company owns no such row; then a null date fails with 500; every refusal changes nothing; otherwise only that row changes, and only in the fields the request set |
| Expenses.ExpenseBook.PostRecurring | backend/app/routers/expense.py:151-194 | 404 exactly when the company has no recurring template with that id; otherwise the template is advanced and one new expense with a fresh id is appended |
| Expenses.RemoveKeepsIds | backend/app/routers/expense.py:146-147 | removing a row keeps the remaining ids unique and below the next id |
| Expenses.StatsIgnoreAdvance | backend/app/routers/expense.py:183-189 | moving a template's due date leaves the statistics unchanged |
| Expenses.PostAddsOneToStats | backend/app/routers/expense.py:151-194 | posting adds one to the count and the template's amount to the total, and to this month's sum exactly when today is in the month |
| Expenses.AddOneMonth | frontend/src/pages/Expenses.jsx:550-553 | the result is a valid date: the same day in the next month, or, when that month is too short, day 1 to 3 of the month after; days up to 28 are kept |
| Expenses.EndOfJanuaryDueInMarch | frontend/src/pages/Expenses.jsx:550-553 | a recurring expense dated 31 January 2025 gets 3 March 2025 as its default due date |
| Expenses.BuildPayload | frontend/src/pages/Expenses.jsx:520-554 | amount, party, date, category, description, payment method and recurring flag are sent as entered; each cheque field only for a Cheque payment and only when filled; the frequency only for a recurring expense; a missing due date of a recurring expense becomes one month after its date |
| Expenses.LexTotal | frontend/src/pages/Expenses.jsx:736-741 | any two strings are ordered one way or the other in code-point order |
| Expenses.LexTransitive | frontend/src/pages/Expenses.jsx:736-741 | the code-point order is transitive |
| Expenses.InsertString | frontend/src/pages/Expenses.jsx:736-741 | inserting into a sorted list keeps it sorted and adds exactly the new string |
| Expenses.InsertKeepsDistinct | frontend/src/pages/Expenses.jsx:726-741 | inserting a new string into a sorted list without repeats gives a list without repeats |
| Expenses.SortStrings | frontend/src/pages/Expenses.jsx:736-741 | the result is sorted, a permutation of the input, and has no repeats when the input has none |
| Expenses.Matching | frontend/src/pages/Expenses.jsx:732-736 | exactly the categories whose lower case contains the typed text's lower case, without repeats when the input has none |
| Expenses.Suggestions | frontend/src/pages/Expenses.jsx:726-741 | exactly the default and existing categories that match the typed text, each once, sorted |
| Expenses.CreateHintIff | frontend/src/pages/Expenses.jsx:754-765 | the "Create new" hint shows exactly when the text is non-empty and no suggestion equals it ignoring case |
| CompanySettings.CompanyOffDays.constructor | backend/app/routers/company_settings.py:22-40 | every known company starts with no off days, and every stored list holds only day indexes |
| CompanySettings.CompanyOffDays.UpdateOffDays | backend/app/routers/company_settings.py:22-40 | 404 "Company not found" for an unknown company; 400 exactly when some day lies outside 0..6; on an error nothing is stored; otherwise the list is stored and returned as sent, and stored lists keep holding only day indexes |
| CompanySettings.OutOfRangeDayRefused | backend/app/routers/company_settings.py:33-35 | a list with a day outside 0..6 anywhere in it is refused with 400 and the stored off days stay as they were |
| Listing.TotalPages | frontend/src/pages/Items.jsx:162 | the pages hold every row, the last page is not empty, and there are no pages exactly when there are no rows |
| Listing.PageStartBounds | frontend/src/pages/Items.jsx:162-165 | a page number is at most the page count exactly when the page starts inside the list |
| Listing.Page | frontend/src/pages/Items.jsx:163-165 | a page holds at most the page size of consecutive rows from its start index, is non-empty on every existing page and empty beyond the last |
| Listing.PagesThroughPrefix | frontend/src/pages/Items.jsx:163-165 | the first k pages put together are the list's first k times page-size rows |
| Listing.PagesCoverList | frontend/src/pages/Items.jsx:162-165 | all pages put together give back the whole list, in order |
| Listing.ShownRangeCountsRows | frontend/src/pages/Items.jsx:355-372 | on an existing page the "Showing a to b of n" caption lies within 1..n and counts exactly the rows shown |
| Listing.ButtonsThrough | frontend/src/pages/Items.jsx:401-408 | the drawn buttons among pages 1..k are exactly those the filter keeps, increasing, without repeats |
| Listing.AllButtonsThrough | frontend/src/pages/Items.jsx:401-403 | with at most seven pages, the first k buttons are pages 1 to k |
| Listing.FewPagesAllShown | frontend/src/pages/Items.jsx:401-418 | with at most seven pages every page has a button, in order, and no ellipsis is drawn |
| Listing.ButtonsGrowAtMost | frontend/src/pages/Items.jsx:401-408 | widening the range by some pages adds at most that many buttons |
| Listing.ButtonsFlat | frontend/src/pages/Items.jsx:401-408 | pages without a button add none |
| Listing.AtMostFiveButtons | frontend/src/pages/Items.jsx:401-408 | with more than seven pages at most five buttons are drawn |
| Listing.EllipsisMarksHiddenPages | frontend/src/pages/Items.jsx:409-418 | an ellipsis is drawn exactly before a button that does not follow its predecessor, and every page it stands for exists and has no button |
| Listing.FilterItems | frontend/src/pages/Items.jsx:148-159 | exactly the items whose name or barcode holds the search text ignoring case and that belong to the chosen party, each kept once, larger ids first |
| Listing.PartyNarrowsItems | frontend/src/pages/Items.jsx:154-156 | choosing a party keeps only items of that party that the unfiltered list also shows |
| Listing.EmptySearchKeepsParty | frontend/src/pages/Items.jsx:150-157 | the empty search keeps every item of the chosen party |
| Listing.ItemsStats | frontend/src/pages/Items.jsx:173-178 | the total is the number of listed items, the active count is the number of active ones (at most the total), and the value is the sum of rate times casting weight over the listed items, non-negative when rates and weights are |
| Listing.ItemsStatsAppend | frontend/src/pages/Items.jsx:173-178 | the figures of two lists together are the sums of their figures; one item counts once, as active when it is, and with its rate times casting weight |
| Listing.RealSumNonNegative | frontend/src/pages/Items.jsx:175-178 | a sum of rate times weight over items with non-negative rates and weights is non-negative |
| Listing.CopiesAfter | frontend/src/pages/Items.jsx:549-581 | the minus button lowers the count but not below 1, the plus button raises it by one, and a typed number of at least 1 is taken, anything else giving 1 |
| Listing.CopiesNeverBelowOne | frontend/src/pages/Items.jsx:549-581 | from a count of at least 1 no sequence of clicks and entries brings it below 1 |
| Listing.CopiesPassMaximum | frontend/src/pages/Items.jsx:563-581 | the plus button at 100 gives 101, above the input's declared maximum |
| Listing.BoundedCopiesAfter | frontend/src/pages/Items.jsx:563-581 | the corrected count lies within 1..100 and agrees with the handlers whenever theirs does |
| Listing.BoundedCopiesStayInRange | frontend/src/pages/Items.jsx:563-581 | from a count within 1..100 the corrected count stays within 1..100 through any sequence of actions |
| Listing.FilterChallans | frontend/src/pages/Challans.jsx:133-151 | exactly the challans matching the search by number or party name, the status, the party and the item, each kept once, larger ids first |
| Listing.SumOverFilter | frontend/src/pages/Challans.jsx:192-222 | summing over the rows a filter keeps equals summing each row's share, zero for rows it drops |
| Listing.ChallansStats | frontend/src/pages/Challans.jsx:186-222 | the total is the number of listed challans, sent and delivered are the numbers with that status (together at most the total), each quantity sums its own status's lines, and with non-negative lines the two quantities are non-negative and together at most the whole |
| Listing.DisjointQuantities | frontend/src/pages/Challans.jsx:192-222 | with non-negative lines the sent and delivered quantities are non-negative and add up to at most the quantity of all listed challans |
| Listing.Step | frontend/src/pages/Challans.jsx:158-165 | a changed party clears the item filter, only a party event changes the party, any changed filter returns to page 1, and a page event only moves the page |
| Listing.ItemOptions | frontend/src/pages/Challans.jsx:167-170 | the item select offers exactly the active items of the chosen party, or all active items without one |
| Listing.StepKeepsItemFilterFitting | frontend/src/pages/Challans.jsx:162-170 | through any event the controls allow, the item filter stays unset or names an active item of the chosen party |
| Listing.ItemFilterImpliesParty | frontend/src/pages/Challans.jsx:133-170 | with an item filter set, every listed challan belongs to the chosen party and carries that item |
| Barcode.BarcodeScanner.constructor | frontend/src/hooks/useBarcodeScanner.js:3-9 | the hook starts with the given minimum length and threshold, an empty buffer and the mount time as the last key time |
| Barcode.BarcodeScanner.HandleKeyDown | frontend/src/hooks/useBarcodeScanner.js:12-38 | keys longer than one UTF-16 code unit other than Enter change nothing; after a pause longer than the threshold the buffer is emptied first; Enter with at least the minimum length in code units hands the whole buffer to onScan, prevents the default and empties it; a shorter buffer is kept; a key of at most one code unit is appended |
| Barcode.ScanSession | frontend/src/hooks/useBarcodeScanner.js:12-45 | over any stream of key presses every scanned code has at least the minimum length in code units and there are no more scans than Enter presses |
| Barcode.FastCodeIsScanned | frontend/src/hooks/useBarcodeScanner.js:12-38 | "A", "1", "2" 10 ms apart and then Enter are scanned as "A12" |
| Barcode.AstralKeyIsIgnored | frontend/src/hooks/useBarcodeScanner.js:17-20 | a key outside the Basic Multilingual Plane has length 2 and is ignored, leaving the buffer empty |
| Barcode.SlowTypingIsNotScanned | frontend/src/hooks/useBarcodeScanner.js:21-34 | a long pause before the last character drops the earlier ones, so Enter scans nothing |

## Left out

- The desktop sidecar (desktop/src-tauri) only starts the backend process; it has no rules to state.
- Rendering, toasts, modals, charts, PDF, QR and spreadsheet generation, and the presentation-only widgets are not modelled.
- HTTP clients, sessions, tokens and timers are not modelled. The database, the file system, the clock and the network are parameters or sequences.
- Fernet, PBKDF2, HMAC, JWT and bcrypt are opaque.
  - The backup cipher is a pair of sealing and opening functions given as parameters.
  - The URL signature is a token that holds the string it signs.
- pg_dump, psql and pg_restore are represented only by the name of the tool chosen and the file it is given.
  - The restore endpoint (backend/app/routers/backup.py:76-125) is modelled through UploadPath, DecryptedPath and IsBinary with their lemmas.
  - Its safety backup before restoring and its file I/O are left out.
- A backup's `created_at` is an ISO-formatted text in the listing. The model keeps the file's creation time as an integer, which orders the same way.
- Float rounding is not modelled: `round(..., 2)`, `toFixed` and `toLocaleString` output are left out. Money is exact in paise or `real`.
- Text parsing is an input: `Number()` and `parseInt` results are given directly.
- SubmitPayload (PartyChallanForm): the whitespace set of JavaScript's `trim` is reduced to ASCII blanks, so a challan number surrounded only by other Unicode spaces is trimmed in the source and not in the model.
- ParseFeatures (Subscription): the same ASCII-only `trim` applies to each feature typed in the plan dialogs.
- FilteredData (JobWorkReports): case folding of the search text and of `status` is ASCII only, where JavaScript's `toLowerCase` folds every cased letter; a search for "é" finds "CAFÉ" in the source and not in the model.
- Matching (Expenses): its case-insensitive test folds ASCII letters only, where JavaScript's `toLowerCase` folds every cased letter.
- Suggestions (Expenses): built on Matching, so the same ASCII-only folding applies.
- CreateHintIff (Expenses): the "already exists" comparison folds ASCII letters only, where JavaScript's `toLowerCase` folds every cased letter.
- FilterItems (Listing): the name and barcode search folds ASCII letters only, where JavaScript's `toLowerCase` folds every cased letter.
- FilterChallans (Listing): the number and party search folds ASCII letters only, where JavaScript's `toLowerCase` folds every cased letter.
- DayCellFor (AttendanceViews): `toUpperCase` of the status is ASCII only; JavaScript upper-cases "preſent" (with a long s) to "PRESENT" and the model does not. The backend stores ASCII statuses only.
- RenderCalendar (AttendanceViews): the same ASCII-only upper-casing of the status applies to each cell.
- NormaliseVehicleNumber (EwayBill): Python's `strip().upper()` is Unicode, while the model trims ASCII blanks and upper-cases ASCII letters only. In the source 'ß' becomes "SS", so "no longer than the input" holds only for ASCII input.
- ParseInt (PartyChallans): Python's `int()` also accepts underscores between digits, non-ASCII decimal digits and Unicode whitespace, so "PC-1_0" continues as "PC-011" in the source; the model accepts only ASCII blanks, one '+' and ASCII digits.
- KeepDigits (EwayBill): a digit is an ASCII '0' to '9'. Python's `str.isdigit` also accepts other Unicode digits, such as "१" or "²", which the source keeps and the model drops.
- FormatHsnCode (EwayBill): built on KeepDigits, so an HSN code written with non-ASCII digits keeps them in the source and loses them in the model.
- LexLe (Expenses): strings are compared by code point, and LexTotal and LexTransitive are stated for that order. JavaScript's default sort compares UTF-16 code units, which differs only when a character beyond U+FFFF meets one from U+E000 to U+FFFF.
- ExpenseStats (Expenses): its own contract states the empty case and the bound only; the exact figures are stated by StatsAreQuerySums.
- RowOf (PublicChallan): quantities are whole numbers in the public challan endpoints. The source sums NUMERIC(10, 2) columns as floats and passes the ok, cr and mr sums through `int()` before computing the amount (backend/app/routers/public_challan.py:124-143), so a fractional quantity is truncated toward zero in the source and not in the model.
- FiguresOf (PublicChallan): the source shows opening, dispatch and balance after `int()` truncation (backend/app/routers/public_challan.py:149-151); with whole quantities the model needs none.
- GroupFigures (PublicChallan): the same truncation of opening and balance is not modelled.
- DownloadRows (PublicChallan): built from RowOf and GroupFigures, so the truncation is not modelled.
- Download (PublicChallan): its rows come from DownloadRows, so the truncation is not modelled. The reference strings of each row (number, date and `int()` of the ordered total of each referenced party challan, backend/app/routers/public_challan.py:115-121) are presentation and are not modelled.
- SummaryRows (PublicChallan): the source shows a line's ok, cr, mr and total quantity after `int()` (backend/app/routers/public_challan.py:286-289) while its amount and the totals use the untruncated quantity; with whole quantities the two coincide in the model.
- Summarize (PublicChallan): built on SummaryRows, so the truncation is not modelled.
- SummaryPage (PublicChallan): built on Summarize, so the truncation is not modelled.
- A missing quantity counts as 0.
- Calendar and clock behaviour is not modelled:
  - JavaScript `Date` parsing;
  - time zones;
  - the day shift of `toISOString` on the Reports page;
  - the effect timing of React.
- The e-way-bill validity bands are the application's own; the model follows them and not the CGST Rules, 2017.
- Pagination on the parties and party-challans screens uses the same window as the items screen and is not modelled separately.
- `get_company_settings` is a plain read and is not modelled.
- The delivery-challan form's edit path is not modelled, and neither is the fetch of the next challan number when a party is chosen; the number is only displayed.
- The party-challan table's unique constraint, which would fail at flush, is not modelled.
- A party-challan item without an item master sorts as "" in the model, where the source would raise an error.
- `addItemRow` and `updateItemRow` in the party-challan form are defined but never wired into the rendered form, so they are not modelled.
- The stock queries take SQLAlchemy's autoflush as a parameter. With the default (autoflush on) FlushedChallanKeepsStock holds; UnflushedLinesCanOversell shows what happens without it.
- The call at backend/app/routers/stock.py:28 passes `get_current_stock` its arguments in another order; the model follows the utility's own signature.
- Users.WithRole does not track `role_description`, which only the screen displays.
- The API calls of the role editor's save, delete and edit handlers are not modelled; their payloads are the form state the model keeps.
- The API calls of the user screen's create, edit and delete are not modelled, and neither are the failure messages they show.
- The client settings' profile form is not modelled; it only sends its fields.
- Thin CRUD routers (roles, users, profile, items, parties, holidays, notifications), the analytics endpoints and the schema scripts are lookups, DDL or presentation and are not modelled.

## Findings

| source | as written | input that shows it | evidently intended | confidence | as-written member | corrected member |
|---|---|---|---|---|---|---|
| backend/app/routers/public_challan.py:238-259 | the rupee digits are grouped with the minus sign counted as a digit | -100.00 is shown as "-,100.00" | "-100.00": grouping applies to the digits only | high (not executed) | PublicChallan.AsWrittenCommaAfterSign, PublicChallan.AsWrittenMinusHundred | PublicChallan.IndianCurrency, PublicChallan.IndianCurrencyRemoveCommas |
| backend/app/routers/public_challan.py:97-151 | a group's opening and balance are read from the party-challan item found in that group, left unset when the group has none | a first group without party-challan items fails; a later one shows the previous group's opening and balance | every group shows its own figures, zero when it has no party-challan item | medium (not executed) | PublicChallan.RowsAsWritten, PublicChallan.FirstGroupWithoutPcItemFails, PublicChallan.LaterGroupWithoutPcItemShowsStaleFigures | PublicChallan.GroupFigures, PublicChallan.DownloadRows |
| backend/app/routers/reports.py:117-142 | ledger entries are keyed by the text party + "-" + item | parties and items ("A-B", "C") and ("A", "B-C") share one entry | one entry per (party, item) pair | high (not executed) | JobWorkReports.KeyAsWritten, JobWorkReports.HyphenKeysCollide, JobWorkReports.AsWrittenMergesPairs | JobWorkReports.LedgerSpec |
| frontend/src/components/AddPartyChallanModal.jsx:150-154 | the duplicate test compares item and process ids with `===` | a row loaded for editing holds item 5 as a number; choosing item 5 again gives the text "5", and the same pair is added twice | the same (item, process) pair is refused whatever shape its ids have | high (not executed) | PartyChallanForm.AddCheckAsWritten, PartyChallanForm.AsWrittenAddsLoadedPairAgain | PartyChallanForm.AddCheck, PartyChallanForm.AddKeepsPairsUnique |
| backend/backfill_ids.py:30-36 | the counter gives the next number to a profile without one, counting only the profiles seen so far | profile without a number, then a profile of the same company numbered 1: both end with 1 | new numbers above every number the company already uses | high (not executed) | EmployeeIds.BackfillCanDuplicate | EmployeeIds.BackfilledAboveAll, EmployeeIds.AboveAllKeepsNumbersUnique |
| backend/app/services/backup_service.py:127-189 | the encrypted name replaces ".dump" with ".enc", and decryption names a file without ".dump.enc" as ".sql" | an encrypted custom-format backup is decrypted to a ".sql" name and restored with psql | the decrypted file keeps ".dump" and is restored with pg_restore | high (not executed) | Backups.EncryptedDumpRestoredAsScript | Backups.EncryptedNameKeepingExt, Backups.KeptExtensionRestoresRightTool |
| backend/app/services/permission_service.py:39-62 | `has_permission` admits a super admin before looking at the role, while `has_any_permission` refuses a user without a role first | a super admin without a role passes `has_permission` for "reports.view" but fails `has_any_permission` of ["reports.view"] | a super admin passes both checks | high (not executed) | Permissions.SuperAdminWithoutRoleRefusedAny | Permissions.HasAnyPermissionAdminFirst, Permissions.AdminFirstAnyOfOne |
| frontend/src/pages/UserManagement.jsx:593-621 | the email is compared with the user's stored email, which can be null, while the dialog shows "" | a user without an email, dialog saved untouched: `{email: ""}` is sent | an untouched dialog reports that nothing changed | medium (not executed) | Users.UnchangedEditWithoutEmailIsSent | Users.UpdatesAgainstShown, Users.UntouchedEditHasNoUpdates |
| frontend/src/components/SubscriptionCard.jsx:31-38 | progress divides the elapsed days by the total days, which are 0 for an empty window | start, end and now at the same instant: 0 / 0 is NaN | an empty window shows 100 % | medium (not executed) | Subscription.SameInstantProgressIsNaN | Subscription.Progress, Subscription.ProgressAgrees |
| frontend/src/pages/Items.jsx:549-581 | the plus button adds one without the input's `max="100"` | a count of 100 and one click on plus: 101 copies | the count stays within 1..100 | medium (not executed) | Listing.CopiesAfter, Listing.CopiesPassMaximum | Listing.BoundedCopiesAfter, Listing.BoundedCopiesStayInRange |
