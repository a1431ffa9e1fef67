# KelSun Ventures Portal — a Dafny model of its business rules

KelSun Ventures Portal is a Next.js back office for a small trading business.
It tracks investor capital, inventory, expenses, profit adjustments and the
daily M-Pesa float. This project models the rules inside it and proves what
they promise:

- **The dashboard aggregator.** Four metrics with their changes against the
  previous period, a six-month earnings series and a seven-day M-Pesa series.
- **The API route handlers** for M-Pesa entries, expenses, adjustments,
  inventory, investments and registration. For each: the order of the
  401/400/500 answers, the required fields, and how body fields are normalised
  before they are stored.
- **The client pages and forms.** Derived metrics, search filters, validators
  and the payloads the submit handlers send, plus the state those handlers set.
- **Helpers.** The dotted-key lookup of the data table, and the query-string
  builders and fallbacks of the data hooks.

JavaScript values are modelled explicitly in module `Js`. That covers
truthiness, `parseFloat`, `parseInt`, `Number(...)`, NaN, `trim`,
`toLowerCase` (ASCII letters only), `includes` and `split`. Dates are integer milliseconds on a
proleptic Gregorian calendar (module `Calendar`). The current time is always
a parameter. The database is a set of in-memory record sequences (module
`Records`), and each query filters them exactly as its where-clause says.
Code that mutates state follows the source's form:

- classes with `modifies` clauses for the page and form state;
- `while` loops with invariants for the chart series and the dotted-key lookup;
- a `SearchParams` class for the appended query parameters.

Every other rule is a function, and lemmas relate them: round trips from a
form through its payload to the route that stores it, order independence,
append laws and concrete scenarios.

## Model

| member | source | states |
|---|---|---|
| Dashboard.WindowsOf | app/api/dashboard/route.ts:14-21 | yesterday is today's midnight less one day; this month and last month start on their 1st at 00:00; `lastMonthEnd` is one day before this month's start |
| Dashboard.NetFlowTerm | app/api/dashboard/route.ts:90-95 | an entry adds deposits − withdrawals − fees when all three are truthy and 0 otherwise |
| Dashboard.AggregateSum | app/api/dashboard/route.ts:25-40 | an aggregate sum is null exactly when no row matches, and `\|\| 0` of it is the plain sum |
| Dashboard.Abs | app/api/dashboard/route.ts:105 | `Math.abs` is non-negative and is the value or its negation |
| Dashboard.PositiveBaselineChange | app/api/dashboard/route.ts:42-44 | the change is 0 when the baseline is at most 0; otherwise the baseline grown by the change percentage is the current value |
| Dashboard.NonZeroBaselineChange | app/api/dashboard/route.ts:104-106 | the change is 0 for a zero baseline; otherwise the baseline plus \|baseline\| × change / 100 is the current value (see also lines 135-137) |
| Dashboard.NonZeroBaselineSign | app/api/dashboard/route.ts:104-106 | with a non-zero baseline the change is positive iff the value grew, and 0 iff it stayed the same |
| Dashboard.BaselineGuardsAgree | app/api/dashboard/route.ts:104-106 | the two change rules agree on a positive baseline (see also lines 42-44) |
| Dashboard.BaselineGuardsDiffer | app/api/dashboard/route.ts:104-106 | the two change rules differ on a negative baseline: from −100 to 0 one gives 0 and the other +100 (see also lines 42-44) |
| Dashboard.TotalInvestmentsIsActiveCapital | app/api/dashboard/route.ts:24-40 | totalInvestments is the sum of capital over the active investments, and 0 when none is active |
| Dashboard.LowStockCount | app/api/dashboard/route.ts:47-66 | lowStockItems is at most the number of items; it is 0 iff no item is low and equals the number of items iff all are; its change is 0 |
| Dashboard.CountBounds | app/api/dashboard/route.ts:48-54 | a filtered count is 0 iff no element qualifies and is the full length iff every element does |
| Dashboard.NetFlowOneMore | app/api/dashboard/route.ts:69-95 | one more entry changes today's net flow by its term when it is an end_of_day entry dated today, and leaves it unchanged otherwise |
| Dashboard.ZeroFeeDropped | app/api/dashboard/route.ts:91 | an end_of_day entry with fee 0 adds nothing to the net flow, though its deposits exceed its withdrawals |
| Dashboard.PriorWindowGap | app/api/dashboard/route.ts:109-125 | an investment created after 00:00 on the last day of last month, and before this month, changes neither the previous-month nor the this-month figures (see also lines 20-21, 29-37) |
| Dashboard.MetricsIgnoreOrder | app/api/dashboard/route.ts:24-137 | the metrics depend only on the multiset of rows in each table |
| Dashboard.TwoEntriesToday | app/api/dashboard/route.ts:69-95 | two end_of_day entries today, (1000, 400, 50) and (500, 100, 10), give a net flow of 940 |
| Dashboard.OneInvestmentThisMonth | app/api/dashboard/route.ts:24-44 | one active investment of 200000 with profit 45000 at share 0.3 created now gives total 200000, profit share 13500 and both changes 0 (see also lines 108-137) |
| Dashboard.EmptyAllZero | app/api/dashboard/route.ts:14-248 | with every table empty all eight metrics are 0, the earnings series has six points with zero earnings and expenses, and the M-Pesa series has seven points with zero deposits and withdrawals |
| Dashboard.LowStockScenario | app/api/dashboard/route.ts:47-65 | an item with stock 2 and threshold 5 counts as low and one with stock 10 does not |
| Dashboard.MonthLabelAsWritten | app/api/dashboard/route.ts:177-178 | as written the label exists only for a month index in 0..11 |
| Dashboard.MonthLabel | app/api/dashboard/route.ts:177-178 | the intended label is the name of the month the window covers, which agrees with the as-written label on 0..11 (see also line 171) |
| Dashboard.MonthLabelMissingInJanuary | app/api/dashboard/route.ts:177-178 | in January the oldest point has no label as written, while the intended label is "Aug" |
| Dashboard.MonthLabelsAsWritten | app/api/dashboard/route.ts:176-178 | every point has a label as written iff the current month is June or later |
| Dashboard.EarningsStep | app/api/dashboard/route.ts:177-210 | one turn of the loop gives the point built from the `new Date(y, m, 1)` and `new Date(y, m + 1, 0)` window of its month |
| Dashboard.GenerateEarningsChartData | app/api/dashboard/route.ts:170-215 | the loop returns six points, the earnings series, oldest month first |
| Dashboard.EarningsWindowsConsecutive | app/api/dashboard/route.ts:180-181 | each month's window starts one day after the previous window's last midnight |
| Dashboard.EarningsLastPoints | app/api/dashboard/route.ts:176-181 | the last point is the current month, and the one before uses the same window as the previous-month metrics (see also lines 19-21) |
| Dashboard.MonthStartMonotone | app/api/dashboard/route.ts:180 | a later month starts no earlier |
| Dashboard.EarningsGap | app/api/dashboard/route.ts:180-190 | a record stamped after 00:00 on a month's last day falls into no point of the series |
| Dashboard.DayLabel | app/api/dashboard/route.ts:242 | the label of a weekday is taken from a week starting on Monday (see also line 218) |
| Dashboard.MpesaSeriesAt | app/api/dashboard/route.ts:222-246 | the M-Pesa series has seven points, and point k is the day 6 − k days back |
| Dashboard.DayShift | app/api/dashboard/route.ts:223-225 | going back i whole days moves the day number back by i |
| Dashboard.GenerateMpesaChartData | app/api/dashboard/route.ts:217-249 | the loop returns seven points, the M-Pesa series, oldest day first |
| Dashboard.MpesaLastDays | app/api/dashboard/route.ts:222-226 | the last two points cover exactly the windows of yesterday's and today's net flow (see also lines 15-17) |
| Dashboard.DayLabelInjective | app/api/dashboard/route.ts:242 | different weekdays get different labels (see also line 218) |
| Dashboard.WeekDaysDiffer | app/api/dashboard/route.ts:242 | days fewer than seven apart fall on different weekdays |
| Dashboard.MpesaLabelsDistinct | app/api/dashboard/route.ts:222-246 | the seven labels are pairwise different and the last is today's weekday |
| Dashboard.WindowSplit | app/api/dashboard/route.ts:228-238 | end_of_day sums over two adjacent windows add up to the sum over their union |
| Dashboard.DaysToMs | app/api/dashboard/route.ts:226 | whole days scale to milliseconds monotonically |
| Dashboard.DepositsOverSpan | app/api/dashboard/route.ts:228-238 | the day-by-day deposits add up to the deposits of the whole span |
| Dashboard.PointDepositsDays | app/api/dashboard/route.ts:238-245 | points that each show one day's deposits add up to those days' deposits |
| Dashboard.MpesaWeekDeposits | app/api/dashboard/route.ts:222-246 | the chart's deposits add up to the deposits of every end_of_day entry of the seven days, null counting as 0 |
| Dashboard.ZeroFeeShownInChart | app/api/dashboard/route.ts:238 | a zero-fee entry's deposits still count in the chart, although its net flow term is 0 (see also line 91) |
| Dashboard.Get | app/api/dashboard/route.ts:6-168 | 401 without a session, 500 when a read throws, else 200 with the metrics and both series, which have 6 and 7 points |
| Requests.RangeOf | app/api/expenses/route.ts:22-27 | a date range exists iff both query dates are non-empty, and it spans them |
| Requests.FloatOrNull | app/api/mpesa/route.ts:82-86 | `x ? parseFloat(x) : null` is null iff the value is falsy, and is parseFloat of it otherwise |
| Requests.IntOrNull | app/api/adjustments/route.ts:74 | `x ? parseInt(x) : null` is null iff the value is falsy, and is parseInt of it otherwise |
| Requests.ZeroBecomesNull | app/api/mpesa/route.ts:82-86 | the number 0 and the empty string become null, but the string "0" becomes 0 |
| Requests.Column | app/api/mpesa/route.ts:78-89 | a nullable column receives a value iff it is a number |
| MpesaRoute.BuildWhere | app/api/mpesa/route.ts:19-26 | the where-clause has a date range exactly when both query dates are non-empty, and then it is that range |
| MpesaRoute.ListedNetChange | app/api/mpesa/route.ts:34-43 | a listed end-of-day entry with truthy deposits, withdrawals and fees gets deposits − withdrawals − fees; every other entry gets 0 |
| MpesaRoute.WithNetChange | app/api/mpesa/route.ts:34-43 | the listed entry differs from the stored one only in `netChange`, which is the recomputed value |
| MpesaRoute.Get | app/api/mpesa/route.ts:8-53 | 401 without a session, 500 when the read throws, else 200 with the listing for the range the query parameters give |
| MpesaRoute.ListingContents | app/api/mpesa/route.ts:28-43 | the listing has one row per matching entry, newest first: row i is the i-th queried entry with its recomputed net change, and the queried entries are the matching entries, each as often as it is stored; every row comes from a matching entry and every matching entry appears |
| MpesaRoute.OneDateIgnored | app/api/mpesa/route.ts:19-26 | with only a start date the filter is dropped and every entry is listed |
| MpesaRoute.PostedNetChange | app/api/mpesa/route.ts:73-76 | the stored net change is non-null exactly for an end-of-day body that has deposits, withdrawals and fees, and is then their JavaScript difference |
| MpesaRoute.Post | app/api/mpesa/route.ts:55-99 | 401 without a session, 500 for a body that cannot be destructured or a failed create, 400 "Date and type are required" exactly when either is falsy, else 201 with the record built from the body |
| MpesaRoute.ZeroFeeEntry | app/api/mpesa/route.ts:73-89 | an end-of-day entry posted with fees 0 is created, and its net change is deposits − withdrawals |
| MpesaRoute.StartOfDayNoNetChange | app/api/mpesa/route.ts:73-76 | a start-of-day body always stores a null net change |
| ExpensesRoute.BuildWhere | app/api/expenses/route.ts:20-31 | a date range exactly when both dates are non-empty; a category filter exactly when the category is non-empty, and then it is that category |
| ExpensesRoute.Get | app/api/expenses/route.ts:8-46 | 401 without a session, 500 when the read throws, else 200 with the listing for the where-clause the query gives |
| ExpensesRoute.ListingContents | app/api/expenses/route.ts:33-36 | the listing is newest first, is a permutation of the matching expenses, and holds an expense exactly when it is stored, in the range and of the category |
| ExpensesRoute.StoredDescription | app/api/expenses/route.ts:75 | an absent description is stored as null; text is trimmed, blank text becoming null; any other value has no `trim` and throws |
| ExpensesRoute.BlankDescription | app/api/expenses/route.ts:75 | a description is stored as null exactly when every character of it is whitespace |
| ExpensesRoute.Post | app/api/expenses/route.ts:48-88 | 401, then 500 for an undestructurable body, then 400 "Date, category, and amount are required" exactly when one is falsy, then 400 "Amount must be greater than 0" exactly when the parsed amount is ≤ 0; success exactly when all checks pass, the description can be stored and create succeeds, storing the parsed amount, which is then not ≤ 0 |
| ExpensesRoute.NonNumericAmountAccepted | app/api/expenses/route.ts:64-78 | an amount "abc" passes both checks and is stored as NaN |
| AdjustmentsRoute.BuildWhere | app/api/adjustments/route.ts:20-31 | a type filter exactly when the type is non-empty; a date range exactly when both dates are non-empty |
| AdjustmentsRoute.LinkedItem | app/api/adjustments/route.ts:33-39 | the included item is a stored item with the adjustment's item id; none exactly when there is no id or no item has it |
| AdjustmentsRoute.Get | app/api/adjustments/route.ts:8-49 | 401 without a session, 500 when the read throws, else 200 with the listing for the where-clause the query gives |
| AdjustmentsRoute.ListingContents | app/api/adjustments/route.ts:33-39 | one row per matching adjustment, newest first: the listed adjustments are the matching ones, each as often as it is stored, each with its linked item, and every matching adjustment appears |
| AdjustmentsRoute.ItemOrNull | app/api/adjustments/route.ts:75 | a truthy item id is kept and any falsy one becomes null |
| AdjustmentsRoute.Post | app/api/adjustments/route.ts:51-90 | 401, then 500 for an undestructurable body, then 400 "Type and date are required" exactly when either is falsy; 201 exactly when both are truthy and create succeeds, with the record built from the body and the included inventory item: a stored item whose id is the record's item id, or none when the id is null or names no item |
| AdjustmentsRoute.DraftNormalisation | app/api/adjustments/route.ts:68-80 | the amount and quantity are null exactly when falsy and parsed otherwise; an empty item id and a quantity 0 become null |
| InventoryRoute.Get | app/api/inventory/route.ts:8-27 | 401 without a session, 500 when the read throws, else 200 with every item by name |
| InventoryRoute.ListingContents | app/api/inventory/route.ts:15-17 | the listing is a permutation of the stored items in ascending order of name |
| InventoryRoute.ByName | app/api/inventory/route.ts:16 | a sequence sorted by the alphabetical comparator on names has its names in lexicographic order pairwise |
| InventoryRoute.ThresholdOrDefault | app/api/inventory/route.ts:50 | the threshold is the parsed integer when that is truthy and 10 otherwise |
| InventoryRoute.ThresholdDefaults | app/api/inventory/route.ts:50 | a missing, empty, zero or non-numeric threshold becomes 10; a negative one is kept |
| InventoryRoute.Post | app/api/inventory/route.ts:29-62 | 401, then 500 for an undestructurable body, then 400 "Missing required fields" exactly when the name is falsy or the unit cost or current stock is undefined; 201 exactly when they are present and create succeeds, storing the name unchanged |
| InventoryRoute.ZeroNumbersAccepted | app/api/inventory/route.ts:38-52 | an item with unit cost 0 and stock 0 is created, with threshold 10 |
| InvestmentsRoute.Get | app/api/investments/route.ts:6-25 | 401 without a session, 500 when the read throws, else 200 with every investment newest start first |
| InvestmentsRoute.ListingContents | app/api/investments/route.ts:13-15 | the listing is a permutation of the stored investments in descending order of start date |
| InvestmentsRoute.Post | app/api/investments/route.ts:27-60 | 401, then 500 for an undestructurable body, then 400 "All fields are required" exactly when any field is falsy; 201 exactly when all are truthy and create succeeds, with the parsed record |
| InvestmentsRoute.ZeroCapitalRejected | app/api/investments/route.ts:36 | a numeric capital of 0 is refused as a missing field |
| InvestmentsRoute.TextZeroCapitalAccepted | app/api/investments/route.ts:36-50 | a capital given as the text "0" is truthy and is stored as 0 |
| RegisterRoute.IndexOf | app/api/auth/register/route.ts:19 | the result is the first position of the character, or none when it does not occur |
| RegisterRoute.EmailValidMatchesPattern | app/api/auth/register/route.ts:19 | the executable e-mail test holds exactly when the text is some non-empty run, "@", a run, ".", a run, where runs hold no whitespace and no "@" |
| RegisterRoute.ValidHasPattern | app/api/auth/register/route.ts:19 | an address the test accepts splits into the three runs of the pattern |
| RegisterRoute.DotSplit | app/api/auth/register/route.ts:19 | an accepted domain has an inner dot with a valid run on each side |
| RegisterRoute.PatternIsValid | app/api/auth/register/route.ts:19 | any address built from three valid runs is accepted |
| RegisterRoute.RunsMakeDomain | app/api/auth/register/route.ts:19 | two valid runs joined by a dot make an accepted domain |
| RegisterRoute.NoAtBefore | app/api/auth/register/route.ts:19 | in run + "@" + rest, the first "@" is the one after the run |
| RegisterRoute.Separators | app/api/auth/register/route.ts:19 | the "@" and "." of a built address sit at the positions the run lengths give |
| RegisterRoute.DottedAddressAccepted | app/api/auth/register/route.ts:19-20 | "ann@shop.co" is accepted |
| RegisterRoute.UndottedDomainRefused | app/api/auth/register/route.ts:19-25 | "ann@shop" does not match the pattern |
| RegisterRoute.WithoutPassword | app/api/auth/register/route.ts:64 | the public user keeps the id, name and e-mail of the stored user |
| RegisterRoute.Classify | app/api/auth/register/route.ts:77-117 | every thrown value gives a failure: 503 exactly for an Error whose message mentions a connection problem, 400 for a duplicate message that is not one, 500 "Database operation failed" for a Prisma message that is neither, and 500 "unexpected" for the rest |
| RegisterRoute.ClassifyExamples | app/api/auth/register/route.ts:85-117 | a "Prisma query timeout" error counts as a connection failure, and a thrown non-Error is unexpected |
| RegisterRoute.Register | app/api/auth/register/route.ts:5-122 | a body that throws or is null goes to the error classifier; 400 for missing fields, then for a bad e-mail, then for a password shorter than 6; an error from `$connect`, from the lookup, or (after a lookup that found no user) from the create goes to the classifier; an existing user gives 400 "User with this email already exists"; after a lookup that found no user, a password that is not a string is refused by the hashing step and that refusal goes to the classifier; success exactly when every step passes, no user has the e-mail and the password is a string, answering 201 with the user without the password |
| RegisterRoute.TypeName | app/api/auth/register/route.ts:51 | the type name bcrypt reports is "string" exactly for strings |
| RegisterRoute.HashRefusal | app/api/auth/register/route.ts:51 | hashing refuses exactly the passwords that are not strings, with an Error whose message names the password's type |
| RegisterRoute.NumberRefusal | app/api/auth/register/route.ts:51 | a numeric password is refused with "Illegal arguments: number, number" |
| RegisterRoute.NumberRefusalUnexpected | app/api/auth/register/route.ts:76-117 | that refusal meets none of the connection, duplicate or Prisma rules, so it answers 500 "An unexpected error occurred" |
| RegisterRoute.NumericPasswordUnexpected | app/api/auth/register/route.ts:5-117 | an accepted body whose password is a number answers 500 "An unexpected error occurred" after a lookup that finds no user, whatever the create would have done |
| RegisterRoute.PasswordLength | app/api/auth/register/route.ts:28 | a five-character password is too short, a six-character one is not, and a number (with no length) is never too short |
| RegisterRoute.AstralPasswordLength | app/api/auth/register/route.ts:28 | the length is counted in UTF-16 code units: three emoji make a password of length 6, which is accepted, while two emoji and a letter (length 5) are refused |
| Js.Utf16Length | app/api/auth/register/route.ts:28 | `length` counts a character outside the Basic Multilingual Plane twice, so it lies between the number of characters and twice that, and equals it for text inside the plane |
| ExpensesPage.FilteredExpenses | app/expenses/page.tsx:49-54 | an expense is kept exactly when its description (if any) or its category contains the search term, ignoring case |
| ExpensesPage.EmptySearchKeepsAll | app/expenses/page.tsx:49-54 | the empty search term keeps every expense, in order |
| ExpensesPage.ThisMonthStartAsWritten | app/expenses/page.tsx:62-63 | as written, "this month" starts on the 1st at the current clock time, not at midnight |
| ExpensesPage.ThisMonthStart | app/expenses/page.tsx:61-67 | the intended start is midnight of the 1st of the current month, no later than today's midnight |
| ExpensesPage.FirstOfMonthMissed | app/expenses/page.tsx:61-67 | after midnight, an expense dated at midnight of the 1st is left out of this month's total as written, and counted by the intended start |
| ExpensesPage.ThisMonthUnbounded | app/expenses/page.tsx:64-66 | an expense dated after now still counts in this month's total |
| ExpensesPage.ShiftedMonth | app/expenses/page.tsx:71 | `setMonth(getMonth() - 1)` lands in the previous month exactly when that month has today's day number, and in the current month otherwise |
| ExpensesPage.SetMonthLands | app/expenses/page.tsx:71 | the shifted date lies inside the month ShiftedMonth names |
| ExpensesPage.LastMonthWindowAsWritten | app/expenses/page.tsx:70-73 | as written, the window starts on the 1st of the landed month at the clock time and ends at midnight of that month's last day |
| ExpensesPage.LastMonthWindow | app/expenses/page.tsx:69-81 | the intended window starts at midnight of the 1st of last month and ends one day before this month starts |
| ExpensesPage.LastMonthAgreesEarlyInMonth | app/expenses/page.tsx:70-73 | on a day the previous month also has, the written window is the intended one shifted by the clock time |
| ExpensesPage.LastMonthOverflow | app/expenses/page.tsx:69-81 | on the 29th to 31st after a shorter month, an expense in the written window also counts this month and lies outside the intended last month |
| ExpensesPage.MarchThirtyFirst | app/expenses/page.tsx:71 | on 2025-03-31 the shifted month is March itself |
| ExpensesPage.MonthlyChange | app/expenses/page.tsx:83-86 | 0 when last month's total is 0; otherwise last month's total grown by the change percentage is this month's total |
| ExpensesPage.CategoryTotalSnoc | app/expenses/page.tsx:88-94 | one more expense raises its own category's total by its amount and leaves the other totals alone |
| ExpensesPage.CategoryBreakdown | app/expenses/page.tsx:88-94 | the loop's map has exactly the occurring categories as keys, each mapped to the sum of its amounts |
| ExpensesPage.Step | app/expenses/page.tsx:91 | one turn of the loop, `(breakdown[c] \|\| 0) + amount`, keeps that invariant |
| ExpensesPage.CategoryList | app/expenses/page.tsx:88-94 | the occurring categories, each exactly once |
| ExpensesPage.TotalsOverAll | app/expenses/page.tsx:88-94 | totals over distinct categories that cover every expense add up to the total of all expenses (see also lines 57-59) |
| ExpensesPage.BreakdownAddsUp | app/expenses/page.tsx:88-94 | the breakdown's totals add up to the total expenses (see also lines 57-59) |
| ExpensesPage.FormErrorsContents | app/expenses/page.tsx:103-124 | a message is recorded exactly for an empty date, an empty category, an amount that is empty or parses to at most 0, and a blank description, with the source's texts; no message exactly when the form is valid |
| ExpensesPage.BodyFields | app/expenses/page.tsx:134-146 | the request body carries the date, category, trimmed description and the amount as JSON writes it |
| ExpensesPage.ValidFormAccepted | app/expenses/page.tsx:134-146 | a form valid on the page whose amount parses is stored by the endpoint with the same date and category, the trimmed description and that amount |
| ExpensesPage.NonNumericAmountRefusedByServer | app/expenses/page.tsx:114 | an amount "abc" passes the page's check but is sent as null, and the endpoint answers 400 |
| ExpensesPage.SubmitState.constructor | app/expenses/page.tsx:33-46 | the form starts dated today with empty fields, no messages, nothing being edited and the form hidden |
| ExpensesPage.SubmitState.HandleInputChange | app/expenses/page.tsx:96-101 | the field takes the typed text, a non-empty message for that field is blanked with its key kept, and nothing else changes |
| ExpensesPage.SubmitState.ValidateForm | app/expenses/page.tsx:103-124 | the shown messages become the form's messages, and the answer is whether the form is valid |
| ExpensesPage.SubmitState.HandleSubmit | app/expenses/page.tsx:126-162 | an invalid form sends nothing and only shows its messages; a valid one sends an update of the edited expense or a create; success hides and resets the form, failure keeps it and shows "Failed to update expense" or "Failed to create expense"; the submitting flag ends false |
| ExpensesPage.MonthCardsAddExpense | app/expenses/page.tsx:61-86 | with the intended windows one more expense adds its amount to this month's card from the 1st on, to last month's card inside last month, and to neither before |
| AdjustmentsPage.ItemPickedRows | app/adjustments/page.tsx:254 | the items-picked table lists exactly the loaded adjustments of type item_picked |
| AdjustmentsPage.ItemsPickedAppend | app/adjustments/page.tsx:45-54 | the items-picked value of two lists together is the sum of their values |
| AdjustmentsPage.ItemsPickedAddOne | app/adjustments/page.tsx:45-54 | one more adjustment adds quantity × unit cost when it is an item picked with a truthy quantity and a linked item, and nothing otherwise |
| AdjustmentsPage.ItemsPickedOrder | app/adjustments/page.tsx:45-54 | the items-picked value is the same for any order of the adjustments |
| AdjustmentsPage.ItemsPickedNonNegative | app/adjustments/page.tsx:45-54 | with non-negative quantities and unit costs the value is not negative |
| AdjustmentsPage.ProfitAdjustmentAddExpense | app/adjustments/page.tsx:56-60 | one more expense raises the monthly profit adjustment by its amount |
| AdjustmentsPage.ItemPickedErrorsContents | app/adjustments/page.tsx:65-69 | "Please select an item" exactly when no item is chosen, "Quantity must be greater than 0" exactly when the quantity is empty or parses to at most 0, nothing else; no message exactly when the form is valid |
| AdjustmentsPage.FindItem | app/adjustments/page.tsx:76 | the item found is a loaded item with the id; none exactly when no item has it |
| AdjustmentsPage.FindItemFirst | app/adjustments/page.tsx:76 | the item found is the first one with the id |
| AdjustmentsPage.PickedDescription | app/adjustments/page.tsx:82 | the typed description, or "<quantity> units picked by investor" when it is empty |
| AdjustmentsPage.CalculatedAmount | app/adjustments/page.tsx:76-77 | 0 when no item has the id; otherwise the parsed quantity times the item's unit cost, or NaN when the quantity does not parse |
| AdjustmentsPage.ItemPickedBodyFields | app/adjustments/page.tsx:79-86 | the body carries type item_picked, the date, the description, the item id, and the quantity and amount as JSON writes them |
| AdjustmentsPage.UndatedItemPickedRefused | app/adjustments/page.tsx:62-86 | the page does not check the date, so a valid form with an empty date is refused by the endpoint with 400 |
| AdjustmentsPage.DatedItemPickedStored | app/adjustments/page.tsx:62-86 | a valid dated form is stored as an item_picked adjustment with that date, the picked description and the chosen item id, and the reply includes the stored item with that id |
| AdjustmentsPage.NonNumericQuantityStoresNull | app/adjustments/page.tsx:83-84 | a quantity "abc" passes the page's check, and the adjustment is stored with a null quantity and amount (see also line 67) |
| AdjustmentsPage.ExpenseErrorsContents | app/adjustments/page.tsx:105-109 | "Category is required" exactly when the category is blank, "Amount must be greater than 0" exactly when the amount is refused; no message exactly when the form is valid |
| AdjustmentsPage.ExpenseBodyFields | app/adjustments/page.tsx:116-121 | the body carries the trimmed category, the amount as JSON writes it and the date, and leaves the description out when it is empty |
| AdjustmentsPage.ExpenseStored | app/adjustments/page.tsx:102-121 | a valid dated expense with a numeric amount is stored with the trimmed category and that amount, an empty description becoming null |
| AdjustmentsPage.UndatedExpenseRefused | app/adjustments/page.tsx:102-121 | the page does not check the date, so an empty date is refused by the endpoint with 400 |
| AdjustmentsPage.PageState.constructor | app/adjustments/page.tsx:22-42 | both forms start hidden and empty, dated today, with no messages |
| AdjustmentsPage.PageState.HandleItemPickedSubmit | app/adjustments/page.tsx:62-100 | the messages replace the shown ones; an invalid form sends nothing; a valid one sends its payload, and then closes and resets the form, or shows "Failed to record item picked"; the expense form is untouched |
| AdjustmentsPage.PageState.HandleExpenseSubmit | app/adjustments/page.tsx:102-135 | the same flow for the expense form, with "Failed to record expense"; the item-picked form is untouched |
| InvestmentsPage.AverageRoi | app/investments/page.tsx:190 | a value exactly when the active capital is positive, and then it times the capital is 100 × the current profit; otherwise the card shows "0%" |
| InvestmentsPage.AddInvestment | app/investments/page.tsx:30-44 | one more active investment adds its capital, its profit and one investor; an inactive one changes no metric |
| InvestmentsPage.MetricsOrder | app/investments/page.tsx:30-44 | the four metrics are the same for any order of the investments (see also line 190) |
| InvestmentsPage.NoActiveInvestors | app/investments/page.tsx:30-44 | without an active investor the capital and profit are 0 and the ROI card shows "0%" (see also line 190) |
| InvestmentsPage.FormErrorsContents | app/investments/page.tsx:53-70 | a message exactly for a blank name, a refused capital and a profit share that is empty, at most 0 or above 1, with the source's texts; no message exactly when the form is valid |
| InvestmentsPage.ShareBounds | app/investments/page.tsx:64 | a numeric profit share that passes lies in (0, 1] |
| InvestmentsPage.BodyFields | app/investments/page.tsx:79-84 | the body carries the trimmed name, the start date, and capital and share as JSON writes them |
| InvestmentsPage.ValidFormStored | app/investments/page.tsx:72-84 | a valid dated form with numeric amounts is created with the trimmed name, the date and the two numbers |
| InvestmentsPage.NonNumericCapitalRefused | app/investments/page.tsx:60 | a capital "abc" passes the page's check, is sent as null, and the endpoint answers 400 "All fields are required" (see also line 82) |
| InvestmentsPage.PageState.constructor | app/investments/page.tsx:17-27 | the form starts empty and dated today, hidden, with no messages |
| InvestmentsPage.PageState.HandleInputChange | app/investments/page.tsx:46-51 | the field takes the typed text, a non-empty message for it is blanked with its key kept, and nothing else changes |
| InvestmentsPage.PageState.ValidateForm | app/investments/page.tsx:53-70 | the shown messages become the form's messages, and the answer is whether the form is valid |
| InvestmentsPage.PageState.HandleSubmit | app/investments/page.tsx:72-98 | an invalid form sends nothing; a valid one sends its payload, then closes and resets the form, or shows "Failed to create investment"; the submitting flag ends false |
| MpesaPage.TodayEntries | app/mpesa/page.tsx:25-28 | an entry is listed for today exactly when it is loaded and its date string starts with today's date |
| MpesaPage.TodayAddEntry | app/mpesa/page.tsx:25-32 | one more entry adds its net change to today's flow when it is dated today and the net change is truthy, and nothing otherwise |
| MpesaPage.WeeklyAddEntry | app/mpesa/page.tsx:34-42 | one more entry adds its net change (null counting 0) to the weekly flow exactly when its date string is at least the week-ago date |
| MpesaPage.PrefixAtLeast | app/mpesa/page.tsx:40 | a string that starts with a prefix is at least that prefix in string order |
| MpesaPage.AtLeastPrefix | app/mpesa/page.tsx:40 | a ≤ b and s starting with b give a ≤ s in string order |
| MpesaPage.TodayWithinWeek | app/mpesa/page.tsx:25-42 | when the week-ago date is no later than today, every entry counted today is counted in the weekly flow |
| MpesaPage.FlowsOrder | app/mpesa/page.tsx:30-42 | both flows are the same for any order of the entries |
| MpesaPage.PageState.constructor | app/mpesa/page.tsx:18-20 | both forms start hidden and nothing is being submitted |
| MpesaPage.PageState.HandleCreateEntry | app/mpesa/page.tsx:44-55 | a successful create closes both forms with no alert; a failed one keeps them and alerts "Failed to create entry"; the submitting flag ends false |
| InventoryPage.FilteredItems | app/inventory/page.tsx:22-26 | an item is listed exactly when its lower-cased name contains the lower-cased term |
| InventoryPage.EmptySearchKeepsAll | app/inventory/page.tsx:22-26 | the empty term keeps every item, in order |
| InventoryPage.LowerTwice | app/inventory/page.tsx:24 | lower-casing twice is lower-casing once |
| InventoryPage.SearchIgnoresCase | app/inventory/page.tsx:22-26 | a term and its lower-cased form find the same items |
| InventoryPage.LowStockItems | app/inventory/page.tsx:28-30 | an item is low exactly when it is loaded and its stock is at most its reorder threshold, whatever the search |
| InventoryPage.LowStockBanner | app/inventory/page.tsx:147-157 | the banner shows exactly when some item is low; it counts the low items, with "item is" for one and "items are" for more |
| InventoryPage.RowFlagsAgreeWithBanner | app/inventory/page.tsx:76-78 | a row shows the warning icon and the red stock exactly when it is one of the items the banner counts (see also line 91) |
| InventoryPage.BannerIffSomeRowWarns | app/inventory/page.tsx:147-157 | the banner shows exactly when some row of the unfiltered table shows the warning icon (see also lines 76-78) |
| InventoryPage.BannerIgnoresSearch | app/inventory/page.tsx:147-157 | a low item the search hides still counts in the banner (see also lines 22-30) |
| InventoryPage.EmptyMessage | app/inventory/page.tsx:181-187 | "Loading inventory..." while loading, else "No items match your search" for a non-empty term, else the prompt to add a first item |
| InventoryPage.PageState.constructor | app/inventory/page.tsx:16-20 | the modal starts closed in create mode with no item selected |
| InventoryPage.PageState.HandleCreateItem | app/inventory/page.tsx:32-36 | the modal opens in create mode with no item |
| InventoryPage.PageState.HandleEditItem | app/inventory/page.tsx:38-42 | the modal opens in edit mode on the row's item |
| InventoryPage.PageState.CloseModal | app/inventory/page.tsx:193 | the modal closes and keeps its mode and item |
| InventoryPage.PageState.HandleModalSubmit | app/inventory/page.tsx:54-65 | create mode sends a create, edit mode with an item sends an update of that item's id, edit mode without one sends nothing; it fails only when a request was sent and failed; the submitting flag ends false and the modal state is unchanged |
| InventoryPage.HandleDeleteItem | app/inventory/page.tsx:44-52 | the item's id is sent exactly when the deletion is confirmed, and "Failed to delete item" is alerted exactly when a confirmed deletion fails |
| InventoryModal.OpenedForm | app/components/organisms/InventoryModal.tsx:32-42 | without an item the fields are blank with threshold "10"; with one they hold its name and its numbers as text, an empty text falling back to "" or "10" |
| InventoryModal.FormErrorsContents | app/components/organisms/InventoryModal.tsx:51-72 | a message exactly for a blank name, a unit cost that is empty or at most 0, and a stock or threshold that is empty or a negative integer, with the source's texts; no message exactly when the form is valid |
| InventoryModal.BodyFields | app/components/organisms/InventoryModal.tsx:80-85 | the body carries the trimmed name and the three parsed numbers as JSON writes them |
| InventoryModal.ValidFormStored | app/components/organisms/InventoryModal.tsx:80-85 | a valid form whose numbers parse, with a non-zero threshold, is stored by the inventory endpoint with exactly those values |
| InventoryModal.ZeroThresholdStoredAsTen | app/components/organisms/InventoryModal.tsx:66-67 | a threshold "0" passes the modal, and the endpoint stores 10 instead |
| InventoryModal.Render | app/components/organisms/InventoryModal.tsx:92-128 | nothing when closed; otherwise the title follows the mode, the submit button is disabled while loading and reads "Saving..." then, "Add Item" or "Update Item" otherwise, and the general error shows exactly when one is set |
| InventoryModal.ModalState.constructor | app/components/organisms/InventoryModal.tsx:24-30 | the modal starts with blank fields, threshold "10", and no messages |
| InventoryModal.ModalState.Open | app/components/organisms/InventoryModal.tsx:32-42 | opening fills the fields from the item and clears every message |
| InventoryModal.ModalState.HandleInputChange | app/components/organisms/InventoryModal.tsx:44-49 | the field takes the typed text, a non-empty message for it is blanked with its key kept, and the other fields stay |
| InventoryModal.ModalState.ValidateForm | app/components/organisms/InventoryModal.tsx:51-72 | the shown messages become the form's messages, and the answer is whether the form is valid |
| InventoryModal.ModalState.HandleSubmit | app/components/organisms/InventoryModal.tsx:74-90 | an invalid form submits nothing and shows its messages; a valid one hands over its payload, then closes, or stays open with "Failed to save item. Please try again." |
| MpesaEntryForm.Coerce | app/components/organisms/MpesaEntryForm.tsx:124-165 | an amount input stores the value parsed from the text, or 0 when the text does not parse |
| MpesaEntryForm.CoerceFallback | app/components/organisms/MpesaEntryForm.tsx:124-165 | blank text and text starting with a letter are stored as 0 |
| MpesaEntryForm.FormErrorsContents | app/components/organisms/MpesaEntryForm.tsx:49-77 | "Date is required" exactly without a date; a start-of-day form checks only a falsy or non-positive starting float; an end-of-day form checks only that each of its four amounts is set, non-zero and not negative; no message exactly when the form is valid |
| MpesaEntryForm.ZeroFeesRefused | app/components/organisms/MpesaEntryForm.tsx:67-69 | fees typed as "0" or left blank are refused with "Fees must be 0 or greater" |
| MpesaEntryForm.BodyFields | app/components/organisms/MpesaEntryForm.tsx:82 | the JSON body carries the type, the date and each amount that is set, and leaves out the unset ones |
| MpesaEntryForm.EndOfDayStored | app/components/organisms/MpesaEntryForm.tsx:79-84 | a valid end-of-day form is created by the endpoint with its fees and a net change of deposits − withdrawals − fees |
| MpesaEntryForm.StartOfDayStored | app/components/organisms/MpesaEntryForm.tsx:79-84 | a valid start-of-day form is created with its starting float and a null net change |
| MpesaEntryForm.EntryForm.constructor | app/components/organisms/MpesaEntryForm.tsx:34-40 | the form starts dated today, with its type, no amounts and no messages |
| MpesaEntryForm.EntryForm.HandleInputChange | app/components/organisms/MpesaEntryForm.tsx:42-47 | the date takes the text and an amount takes the coerced number; a non-empty message for that field is blanked with its key kept |
| MpesaEntryForm.EntryForm.ValidateForm | app/components/organisms/MpesaEntryForm.tsx:49-77 | the shown messages become the form's messages, and the answer is whether the form is valid |
| MpesaEntryForm.EntryForm.HandleSubmit | app/components/organisms/MpesaEntryForm.tsx:79-84 | the data is handed over exactly when the form is valid, unchanged |
| InventoryCard.StockPercentage | app/components/organisms/InventoryCard.tsx:27 | for any non-zero threshold the bar is at most 100; with a positive threshold, exactly 100 from twice the threshold on and proportional to the stock below; with a negative threshold, 100 at or below twice the threshold, proportional above it, and at most 0 for a non-negative stock |
| InventoryCard.LowStockBar | app/components/organisms/InventoryCard.tsx:26-27 | a low-stock item's bar is at most half full, an empty stock gives an empty bar, and a non-negative stock never gives a negative one |
| InventoryCard.HalfStockHalfBar | app/components/organisms/InventoryCard.tsx:27 | stock equal to a positive threshold fills exactly half the bar |
| InventoryCard.StockPercentageMonotone | app/components/organisms/InventoryCard.tsx:27 | more stock at the same threshold never gives a lower bar |
| InventoryCard.BarWidth | app/components/organisms/InventoryCard.tsx:27-104 | the bar width is not a finite number exactly when the threshold is 0 and the stock is not positive; a zero threshold with positive stock gives 100 (the cap on Infinity); otherwise it is the stock percentage |
| InventoryCard.Render | app/components/organisms/InventoryCard.tsx:39-133 | the danger icon, red stock text, red bar and alert block all show exactly when stock is low; each button shows exactly when its callback is given; for any threshold; the bar width is the stock percentage for a non-zero threshold and is never above 100 |
| DataTable.ResolvePath | app/components/molecules/DataTable.tsx:69-74 | the loop over the key's segments ends with the value the whole path reaches |
| DataTable.PathConcat | app/components/molecules/DataTable.tsx:71-73 | following a path in two pieces is following the whole path |
| DataTable.UndefinedStays | app/components/molecules/DataTable.tsx:72 | once a segment is missing the rest of the path stays undefined instead of failing |
| DataTable.MissingSegment | app/components/molecules/DataTable.tsx:69-74 | a path is undefined when a prefix of it reaches a value without the next segment's field |
| DataTable.DotTestAgrees | app/components/molecules/DataTable.tsx:67-76 | for a row that is not null, the dot test changes nothing: a key without dots is a one-segment path |
| DataTable.NestedField | app/components/molecules/DataTable.tsx:67-76 | a field of a nested object is reached by its two-segment key, as the adjustment columns use it |
| DataTable.SplitPrefix | app/components/molecules/DataTable.tsx:69 | splitting "seg.rest" where seg has no dot gives seg followed by the pieces of rest |
| DataTable.CellOf | app/components/molecules/DataTable.tsx:86 | a column with a renderer renders the value with its row; otherwise the cell shows the value, or "" for null or undefined |
| DataTable.TableBody | app/components/molecules/DataTable.tsx:47-91 | no data gives one row spanning every column with the empty message or "No data available"; otherwise one row per datum, one cell per column, each the cell of that datum and column |
| DataTable.Headers | app/components/molecules/DataTable.tsx:33-43 | one header per column, each the column's header, in order |
| DataTable.RowsInOrder | app/components/molecules/DataTable.tsx:57-91 | appending data appends rows, so the table keeps the input order |
| Fetch.Serialize | app/hooks/useExpenses.ts:21 | the query string is empty exactly when no parameter was appended |
| Fetch.SearchParams.constructor | app/hooks/useExpenses.ts:16 | a new parameter list is empty |
| Fetch.SearchParams.Append | app/hooks/useExpenses.ts:17-19 | appending adds one pair at the end and changes nothing else |
| Fetch.Url | app/hooks/useExpenses.ts:21 | the bare path for an empty query, else path, "?" and the query |
| Fetch.KeptAppend | app/hooks/useExpenses.ts:16-19 | keeping the parameters of two candidate lists is keeping each and concatenating |
| Fetch.KeptOne | app/hooks/useExpenses.ts:17 | one candidate is kept exactly when its value is a non-empty text |
| Fetch.KeptTwo | app/hooks/useMpesa.ts:20-22 | two candidates are kept in their order, each exactly when its value is non-empty |
| Fetch.KeptThree | app/hooks/useExpenses.ts:16-19 | three candidates are kept in their order, each exactly when its value is non-empty |
| Fetch.Lookup | app/api/mpesa/route.ts:15-17 | the server reads the first value appended under the name, and null exactly when none was |
| Fetch.OrEmpty | app/hooks/useExpenses.ts:74 | no data gives [], and any fetched array, even an empty one, is kept |
| Fetch.Settle | app/hooks/useExpenses.ts:34-40 | a request resolves with the response body exactly when the response is ok, and only then is the listing revalidated; otherwise it rejects with the hook's message |
| UseExpenses.QueryOrder | app/hooks/useExpenses.ts:16-19 | startDate, endDate and category are appended in that order, each exactly when it is non-empty |
| UseExpenses.BuildUrl | app/hooks/useExpenses.ts:16-21 | appending step by step to a SearchParams object builds the listing URL |
| UseExpenses.BareUrl | app/hooks/useExpenses.ts:21 | the URL is "/api/expenses" exactly when no filter is given |
| UseExpenses.LoneStartDate | app/hooks/useExpenses.ts:16-21 | a start date alone is sent as "?startDate=…", and the endpoint applies no date range for it |
| UseExpenses.Expenses | app/hooks/useExpenses.ts:73-74 | empty until data arrives, then the fetched array |
| UseExpenses.CreateExpense | app/hooks/useExpenses.ts:25-41 | the listing is revalidated exactly when the POST succeeds, which resolves with the response body; a failure rejects with "Failed to create expense" |
| UseExpenses.UpdateExpense | app/hooks/useExpenses.ts:43-59 | the PUT goes to "/api/expenses/<id>"; revalidated exactly on success, which resolves with the response body; a failure rejects with "Failed to update expense" |
| UseExpenses.DeleteExpense | app/hooks/useExpenses.ts:61-71 | the DELETE goes to "/api/expenses/<id>"; revalidated exactly on success, which resolves; a failure rejects with "Failed to delete expense" |
| UseAdjustments.QueryOrder | app/hooks/useAdjustments.ts:23-26 | type, startDate and endDate are appended in that order, each exactly when it is non-empty |
| UseAdjustments.BuildUrl | app/hooks/useAdjustments.ts:23-28 | appending step by step builds the listing URL |
| UseAdjustments.BareUrl | app/hooks/useAdjustments.ts:28 | the URL is "/api/adjustments" exactly when no filter is given |
| UseAdjustments.TypeAlone | app/hooks/useAdjustments.ts:23-28 | a type alone is sent as "?type=…", and the endpoint reads that type back |
| UseAdjustments.Adjustments | app/hooks/useAdjustments.ts:51 | empty until data arrives, then the fetched array |
| UseAdjustments.CreateAdjustment | app/hooks/useAdjustments.ts:32-48 | revalidated exactly when the POST succeeds, which resolves with the response body; a failure rejects with "Failed to create adjustment" |
| UseMpesa.QueryOrder | app/hooks/useMpesa.ts:20-22 | startDate then endDate are appended, each exactly when it is non-empty |
| UseMpesa.BuildUrl | app/hooks/useMpesa.ts:20-24 | appending step by step builds the listing URL |
| UseMpesa.BareUrl | app/hooks/useMpesa.ts:24 | the URL is "/api/mpesa" exactly when neither date is given |
| UseMpesa.BothDatesFilter | app/hooks/useMpesa.ts:20-24 | both dates are sent as "?startDate=…&endDate=…", and the endpoint applies the range between them |
| UseMpesa.Entries | app/hooks/useMpesa.ts:48 | empty until data arrives, then the fetched array |
| UseMpesa.CreateEntry | app/hooks/useMpesa.ts:28-44 | revalidated exactly when the POST succeeds, which resolves with the response body; a failure rejects with "Failed to create M-Pesa entry" |
| UseDashboard.DataOf | app/hooks/useDashboard.ts:44-59 | the fetched data when there is some; otherwise every metric and change is 0 and both chart series are empty |
| UseDashboard.FallbackHasNoSeries | app/hooks/useDashboard.ts:44-59 | the endpoint always sends 6 earnings points and 7 M-Pesa points, so the fallback never equals a successful (200) answer of the endpoint |

## Left out

- Sessions and the database: `getServerSession` is a `signedIn` flag. Every Prisma call is a filter, sort or count over the in-memory sequences of `Records.Database`, and whether it throws is a boolean parameter.
- InventoryRoute.ByName: `orderBy: { name: "asc" }` is modelled as comparison by code unit (`Ordering.LexLe`). The database sorts by its own collation, which may order case and accents differently.
- ExpensesPage.FilteredExpenses, InventoryPage.FilteredItems, InventoryPage.SearchIgnoresCase: `toLowerCase` is modelled as an ASCII-only case map (`Js.ToLower`). JavaScript applies full Unicode case mapping and also lowers letters such as É, Ä and Σ, so "ignoring case" is proved only for ASCII letters.
- AdjustmentsRoute.Post: whether `create` throws is the parameter `createSucceeds`. The model does not derive a failure from an item id that names no stored item; such a reply includes no item.
- Concurrency: the dashboard's `Promise.all` reads are modelled one after another, since their order does not change the answer.
- The bcrypt hash value, `$connect`/`$disconnect` and the stored password are not modelled; of hashing, only its refusal of a password that is not a string is. The register route sees the outcome of each database step as a parameter.
- fetch, SWR (`useSWR`, `mutate`, `refreshInterval`) and the network are not modelled. A request is an `ok` flag with a response body; revalidation is a boolean of the result.
- Percent-encoding in `URLSearchParams`: a pair is written `name=value` as given. Only the order and presence of parameters are modelled.
- Dashboard.Get, Dashboard.DashboardOf: one `now` serves the metrics and both chart generators. The source calls `new Date()` afresh in the handler (line 14), for the year (line 172), in every step of the month loop (line 177) and for the day series (line 223), so a request that runs across midnight or across a month boundary may use two different days. The model does not capture this.
- Fetch.OrEmpty, UseExpenses.Expenses, UseAdjustments.Adjustments, UseMpesa.Entries, UseDashboard.DataOf: `data` is the listing (or dashboard) or nothing. The listing fetchers do not check `res.ok`, so the `{ error }` object of a 401 or 500 reply becomes `data`. `data || []` then passes that object to the page. The model does not represent this case.
- Time zones and `toISOString`: local time and UTC coincide, with no daylight saving. The current time, today's date string and the week-ago date string are parameters. `new Date(text)` is an uninterpreted function `dateOf` from text to milliseconds.
- Floating point: amounts are exact `real`s. `toLocaleString` and `toFixed` formatting are not modelled, nor `Number#toString`, which is the parameter `toText` where a form field is filled from a number.
- `parseFloat`, `parseInt` and `Number(...)` read decimal numerals (`parseInt` also reads `0x` hex). They do not read `Infinity`, which gives NaN here. Js.ParseInt applied to a number truncates it. JavaScript first converts the number to text, so `parseInt(1e21)` is 1 and `parseInt(5e-7)` is 5. The model does not reproduce this for numbers whose text uses an exponent.
- Strings are sequences of Unicode characters, not of UTF-16 code units. The one place the portal observes a length is the password check, and there Js.Utf16Length counts code units as JavaScript does. Slicing and comparison work on characters.
- InventoryCard.StockPercentage: requires a non-zero reorder threshold, because the source divides by twice the threshold and a threshold of 0 gives Infinity or NaN. InventoryCard.BarWidth and InventoryCard.Render take any threshold: there, NaN and -Infinity are the `None` width, and the capped Infinity is 100.
- InventoryModal.OpenedForm: `initialData` is a whole item or nothing. The page only ever passes a selected item, so a partial item is not modelled.
- MpesaEntryForm.EntryForm.constructor: takes no `initialData`, because no caller passes one. The `value \|\| ""` display of the inputs is presentation.
- DataTable: a segment applied to a string or number reads as undefined, as for any value that is not an object. `String(value)` is not modelled: the cell holds the value itself, and "" for null or undefined.
- InvestmentsPage.ShareBounds and InventoryPage.RowFlagsAgreeWithBanner: each holds without a proof step. They are kept as statements of the source's promise.
- AdjustmentsRoute.DraftNormalisation: the same, a direct consequence of the normalisation functions.
- Presentational code: the React markup, CSS, show/hide buttons, the edit and delete click handlers of the expenses page (`handleEditExpense`, `handleDeleteExpense`), and the table columns' render functions. The input handlers of the adjustments page are inline object spreads with no rule of their own.
- `alert` and `window.confirm` are results and parameters: an optional alert text, and a `confirmed` flag.
- app/hooks/useInventory.ts and app/hooks/useInvestments.ts are fixed-URL wrappers with no logic of their own. Their create and update calls are the requests the page state methods return.
- `Records.Database` rows carry only the fields the rules read; `createdAt`/`updatedAt` appear only where a window filters by them.

## Findings

| source | as written | input that shows it | evidently intended | confidence | as-written member | corrected member |
|---|---|---|---|---|---|---|
| app/api/dashboard/route.ts:177-178 | the earnings label is `months[currentMonth - 5 + i]`, undefined for a negative index | any date in January to May, e.g. January: the oldest point has index −5 and no label | the name of the calendar month the point covers ("Aug" in January) | high, not executed | Dashboard.MonthLabelAsWritten | Dashboard.MonthLabel |
| app/expenses/page.tsx:69-81 | "last month" is `setMonth(getMonth() - 1)` then `setDate(1)`; on the 29th to 31st after a shorter month the month overflows back into the current month | today 2025-03-31: `setMonth(1)` gives 2025-03-03, so "last month" is March itself | the 1st of the previous calendar month | high, not executed | ExpensesPage.LastMonthWindowAsWritten | ExpensesPage.LastMonthWindow |
| app/expenses/page.tsx:61-67 | "this month" starts at `setDate(1)` on the current time, keeping the clock time | now 2025-03-15 10:00: an expense dated "2025-03-01" (midnight of the 1st) is not counted | midnight of the 1st of the current month | medium, not executed | ExpensesPage.ThisMonthStartAsWritten | ExpensesPage.ThisMonthStart |

The lemmas Dashboard.MonthLabelMissingInJanuary, ExpensesPage.LastMonthOverflow (with ExpensesPage.MarchThirtyFirst) and ExpensesPage.FirstOfMonthMissed exhibit each discrepancy. The dashboard's series and ExpensesPage.MonthCards use the corrected members.
