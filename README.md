# Hackathon starter: payroll, cash flow and the payroll dashboard in Dafny

This project models the core of the `hackathon-starter` example of the Nim Go
SDK. The example is a payroll assistant: a Go agent with banking tools, an
employee directory, and a React front end. The model covers five parts.

- **Payroll reconciliation** (`main.go`). The `payroll_check` and
  `fulfill_remaining_payroll` tools decode the fetched transactions. They
  pass them through `removeOld` and collect, from every note of exactly two
  words, its first word as a "paid" marker. They then report (or request
  payment for) every directory recipient that no marker names. Module
  `Payroll`.
- **Ordinary least squares** (`main.go`). `OLSModel` fits `y = weight * x + bias`
  and can predict, compute R-squared and compute the mean squared error.
  Module `Ols`; the Go struct is a Dafny class whose `Fit` writes its fields.
- **Monthly regressions and their projection** (`MonthSlicer`,
  `ProjectCashFlow`). Module `Segments`.
- **Cash-flow analysis** (`analyseCashFlow`). Transactions are parsed and
  bucketed by calendar day. The buckets are sorted by date and numbered
  from the earliest transaction. A line is fitted to the daily amounts, and
  the result reports the line, its trend, a forecast, statistics and the
  day-by-day history. Module `CashFlow`.
- **Employee validation** (`Employee.Validate` in `internal/storage/models.go`).
  Module `Storage`.
- **Front-end logic.** The analytics of the payroll dashboard
  (`Dashboard.tsx`) are modelled in modules `WageStats` and `Dashboard`:
  wage parsing, quantiles, the department aggregates, the histogram, the
  percentile curve, top versus rest, Pareto, recipient coverage and
  duplicate recipients. The command reference (`RunPayroll.tsx`) is modelled
  in module `Commands`: the category chips, the search filter, the grouping
  by category and the shown total.

Support modules:

- `GoText` holds the parts of Go's `strings` package the core relies on
  (`Fields`, `TrimSpace`).
- `JsText` holds JavaScript's `trim`, `toLowerCase`, `includes`, and
  `Number` on strings.
- `Dynamic` models Go's `interface{}` values decoded from JSON.
- `SeqMath` and `RealAlgebra` hold sums, minima and maxima, filters,
  de-duplication, sorting, and real arithmetic.
- `Wrappers` holds `Option` and `Result`.

Numbers are mathematical reals. Times are whole seconds since Go's zero
instant, so `IsZero()` is `t == 0`, and a calendar day is `t / 86400`
(UTC). Parsers for the date layouts are parameters of the model. The
employee directory is a parameter too: a sequence of employees in
`ListEmployees` order.

## Model

| member | source | states |
|---|---|---|
| Storage.Validate | nim-go-sdk/examples/hackathon-starter/internal/storage/models.go:19-36 | no error exactly when first name, last name, recipient and department each hold a non-space character and the wage is not negative; otherwise the first failing check in source order names the error |
| Storage.BlankIsAllSpace | nim-go-sdk/examples/hackathon-starter/internal/storage/models.go:20 | a text field is rejected exactly when it is empty or entirely white space |
| Storage.ZeroWageAccepted | nim-go-sdk/examples/hackathon-starter/internal/storage/models.go:29-31 | a wage of exactly zero passes when the text fields are present |
| Storage.EmptyLastNameRejected | nim-go-sdk/examples/hackathon-starter/internal/storage/models.go:23-25 | an empty last name after a valid first name gives the last-name error |
| GoText.TrimSpaceEmpty | nim-go-sdk/examples/hackathon-starter/internal/storage/models.go:20 | `TrimSpace` gives "" exactly when the text is all white space |
| GoText.Fields | nim-go-sdk/examples/hackathon-starter/main.go:443 | every word is non-empty and holds no white space; with `Fields("") == []`, FieldsSplit and FieldsWord fix the result on every input |
| GoText.FieldsSplit | nim-go-sdk/examples/hackathon-starter/main.go:443 | a white-space character separates: the words of `a + [c] + b` are the words of `a` followed by those of `b` |
| GoText.FieldsWord | nim-go-sdk/examples/hackathon-starter/main.go:443 | a non-empty run without white space is exactly one word |
| GoText.FieldsUnwords | nim-go-sdk/examples/hackathon-starter/main.go:443 | splitting words joined by single spaces gives back the words |
| Payroll.ObjectsOf | nim-go-sdk/examples/hackathon-starter/main.go:323-328 | the kept transactions are objects among the array's elements, no more of them than elements |
| Payroll.ObjectsOfAllObjects | nim-go-sdk/examples/hackathon-starter/main.go:323-328 | when every element is an object none is dropped and the order is kept |
| Payroll.DecodeTransactions | nim-go-sdk/examples/hackathon-starter/main.go:320-330 | the decode loop yields the objects of the `transactions` array, or nothing when that array is absent |
| Payroll.RemoveOld | nim-go-sdk/examples/hackathon-starter/main.go:415-433 | returns every transaction in order: the local `time` shadows the package, so the cut-off compares each time with itself shifted back 14 days and always passes |
| Payroll.NotesOf | nim-go-sdk/examples/hackathon-starter/main.go:441 | one note per transaction, its `note` string |
| Payroll.MarkersExactly | nim-go-sdk/examples/hackathon-starter/main.go:440-448 | a name is a paid marker exactly when some note has exactly two words and that name is the first |
| Payroll.OnlyTwoWordNotesMark | nim-go-sdk/examples/hackathon-starter/main.go:443-447 | notes of one word or of three or more words mark nobody |
| Payroll.CollectMarkers | nim-go-sdk/examples/hackathon-starter/main.go:440-448 | the first loop collects the markers of the notes, in order |
| Payroll.UnpaidOfExactly | nim-go-sdk/examples/hackathon-starter/main.go:451-461 | a recipient is reported exactly when it is in the directory and no marker names it |
| Payroll.UnpaidMeaning | nim-go-sdk/examples/hackathon-starter/main.go:435-462 | the unpaid list is exactly the directory's recipients that no two-word note names first |
| Payroll.CheckPayments | nim-go-sdk/examples/hackathon-starter/main.go:435-462 | the result is the unpaid list, in directory order, and holds exactly the directory recipients not marked paid |
| Payroll.RequestsFor | nim-go-sdk/examples/hackathon-starter/main.go:338-351 | at most one request per employee, each for an unpaid recipient, carrying that employee's wage, "USD" and the note "`recipient` payroll" |
| Payroll.RequestsComplete | nim-go-sdk/examples/hackathon-starter/main.go:338-351 | every employee whose recipient is unpaid gets that request |
| Payroll.RequestsDistinct | nim-go-sdk/examples/hackathon-starter/main.go:338-351 | with the unique recipients of the `employees` table, no recipient is asked to be paid twice |
| Payroll.PayrollNoteMarksPaid | nim-go-sdk/examples/hackathon-starter/main.go:346 | the note of a request for a handle without spaces marks that handle as paid |
| Payroll.AllMarkedNoneUnpaid | nim-go-sdk/examples/hackathon-starter/main.go:451-461 | when every recipient is marked, nobody is unpaid |
| Payroll.SettledOne | nim-go-sdk/examples/hackathon-starter/main.go:338-351 | once the requested payments are on record, a recipient without spaces is marked paid |
| Payroll.PayrollSettles | nim-go-sdk/examples/hackathon-starter/main.go:338-351 | once the requested payments are on record (and handles have no spaces), a payroll check finds nobody unpaid |
| Payroll.BuildRequests | nim-go-sdk/examples/hackathon-starter/main.go:338-351 | the request loop builds exactly the requests for the unpaid employees, in directory order |
| Payroll.PayrollCheck | nim-go-sdk/examples/hackathon-starter/main.go:363-406 | `payroll_check` reports exactly the directory recipients that no fetched two-word note marks paid |
| Payroll.DoPayroll | nim-go-sdk/examples/hackathon-starter/main.go:293-360 | `fulfill_remaining_payroll` requests payment for exactly the employees `payroll_check` would report |
| Ols.DayXs | nim-go-sdk/examples/hackathon-starter/main.go:951-953 | one regressor per day, its day number |
| Ols.Decompose | nim-go-sdk/examples/hackathon-starter/main.go:727-749 | the total sum of squares splits into residual, cross and fitted parts for any line |
| Ols.SquaredErrorsNonNegative | nim-go-sdk/examples/hackathon-starter/main.go:739-742 | the residual sum of squares is never negative |
| Ols.ExactResidualsVanish | nim-go-sdk/examples/hackathon-starter/main.go:739-742 | points on the line leave zero residuals, weighted residuals and squared residuals |
| Ols.SquaredErrorsZero | nim-go-sdk/examples/hackathon-starter/main.go:739-742 | the residual sum of squares is zero exactly when every prediction is exact |
| Ols.FitLineOk | nim-go-sdk/examples/hackathon-starter/main.go:679-710 | a successful fit had equal-length, non-empty data with a non-zero denominator |
| Ols.NormalEquations | nim-go-sdk/examples/hackathon-starter/main.go:679-710 | the fitted line's residuals, and their products with x, sum to zero: it is the least-squares line |
| Ols.ExactLineRecovered | nim-go-sdk/examples/hackathon-starter/main.go:679-710 | data lying on a line is fitted by that very line |
| Ols.DenominatorIsSpread | nim-go-sdk/examples/hackathon-starter/main.go:697-700 | the denominator is n times the squared deviation of x about its mean |
| Ols.EqualXsFail | nim-go-sdk/examples/hackathon-starter/main.go:702-704 | one point, or equal x values throughout, gives the "too uniform" error |
| Ols.NearlyEqualXsFail | nim-go-sdk/examples/hackathon-starter/main.go:701-704 | the tolerance is absolute: x values 0 and 0.000001 differ, yet the fit is refused as too uniform |
| Ols.SpreadPositive | nim-go-sdk/examples/hackathon-starter/main.go:697-704 | two different x values make the denominator positive |
| Ols.DistinctDaysFit | nim-go-sdk/examples/hackathon-starter/main.go:702-704 | integer day numbers that differ always fit: the denominator is then at least 1 |
| Ols.SameDayFails | nim-go-sdk/examples/hackathon-starter/main.go:702-704 | equal day numbers throughout always fail |
| Ols.RSquaredAtMostOne | nim-go-sdk/examples/hackathon-starter/main.go:744-748 | R-squared is at most 1 for any line, and 0 when the observations are flat |
| Ols.FittedRSquaredBetweenZeroAndOne | nim-go-sdk/examples/hackathon-starter/main.go:727-749 | for the fitted line R-squared lies in [0, 1] |
| Ols.PerfectFitScoresOne | nim-go-sdk/examples/hackathon-starter/main.go:727-749 | observations the line reproduces score 1 unless they are flat |
| Ols.MeanSquaredErrorZero | nim-go-sdk/examples/hackathon-starter/main.go:752-762 | the mean squared error is non-negative and zero exactly when every prediction is exact |
| Ols.OlsModel.constructor | nim-go-sdk/examples/hackathon-starter/main.go:665-668 | the zero model has weight and bias 0 |
| Ols.OlsModel.Fit | nim-go-sdk/examples/hackathon-starter/main.go:679-710 | succeeds exactly when the lengths agree, there is a point and `abs(n·Σx² − (Σx)²) ≥ 1e-10`, and then stores the closed-form line (so nearly equal x values fail even though a line exists); on each error (length mismatch, no data, too uniform) returns that message and leaves the fields alone |
| Ols.OlsModel.Predict | nim-go-sdk/examples/hackathon-starter/main.go:713-715 | `weight·x + bias` of the stored line |
| Ols.OlsModel.PredictBatch | nim-go-sdk/examples/hackathon-starter/main.go:718-724 | one prediction per input, in order |
| Ols.OlsModel.CalculateR2 | nim-go-sdk/examples/hackathon-starter/main.go:727-749 | the R-squared of the stored line over the first `len(y)` inputs, 0 for flat observations |
| Ols.OlsModel.CalculateMse | nim-go-sdk/examples/hackathon-starter/main.go:752-762 | the mean squared error of the stored line over the first `len(y)` inputs, never negative |
| Segments.WindowEnd | nim-go-sdk/examples/hackathon-starter/main.go:776-779 | a window ends after its start, within the data, at most 30 days on |
| Segments.WindowColumns | nim-go-sdk/examples/hackathon-starter/main.go:782-789 | the window's regressors are its day numbers and its observations the matching incomes |
| Segments.MonthSlicer | nim-go-sdk/examples/hackathon-starter/main.go:765-800 | one fitted line per 30-day window whose fit succeeds, in window order |
| Segments.WindowFitsBound | nim-go-sdk/examples/hackathon-starter/main.go:775-797 | no more regressions than windows |
| Segments.WindowFitsCount | nim-go-sdk/examples/hackathon-starter/main.go:775-797 | with increasing day numbers, exactly the windows of two days or more give a regression |
| Segments.Factor | nim-go-sdk/examples/hackathon-starter/main.go:816-824 | every recency factor is positive |
| Segments.FactorTotal | nim-go-sdk/examples/hackathon-starter/main.go:816-824 | the factors of one slice or more add up to a positive total, so the division is defined |
| Segments.ProjectCashFlow | nim-go-sdk/examples/hackathon-starter/main.go:803-835 | computes the projected line: the single slice as it is, otherwise the factor-weighted mean slope and the mean bias |
| Segments.SingleSlice | nim-go-sdk/examples/hackathon-starter/main.go:804-806 | a single slice is its own mean and its own extremes |
| Segments.WeightedMeanBetween | nim-go-sdk/examples/hackathon-starter/main.go:812-829 | the weighted mean slope lies between the least and the greatest slope |
| Segments.ProjectionBetween | nim-go-sdk/examples/hackathon-starter/main.go:803-835 | the projected slope lies between the least and the greatest slice slope, and the bias is the mean bias |
| Segments.UnweightedIsMean | nim-go-sdk/examples/hackathon-starter/main.go:821-829 | without weighting the projected slope is the plain mean slope |
| Segments.AgreeingSlices | nim-go-sdk/examples/hackathon-starter/main.go:803-835 | slices that all agree project to that same line |
| CashFlow.ParseDate | nim-go-sdk/examples/hackathon-starter/main.go:862-881 | the first layout that parses decides the date, and there is one exactly when some layout parses |
| CashFlow.AmountOf | nim-go-sdk/examples/hackathon-starter/main.go:890-903 | an amount exists exactly when the field is a float64, float32, int or int64 |
| CashFlow.RecordDate | nim-go-sdk/examples/hackathon-starter/main.go:862-888 | the date of a record: a string parsed by the layouts, or a time value taken as it is |
| CashFlow.AddToDay | nim-go-sdk/examples/hackathon-starter/main.go:910-920 | adds the record to its day's bucket, creating a bucket dated by this record when the day is new |
| CashFlow.Aggregate | nim-go-sdk/examples/hackathon-starter/main.go:857-921 | the day map and minimum date of the accepted records, in input order |
| CashFlow.SkippedRecordIgnored | nim-go-sdk/examples/hackathon-starter/main.go:878-903 | a record whose date or amount does not parse changes neither the day map nor the minimum date |
| CashFlow.AcceptedEmpty | nim-go-sdk/examples/hackathon-starter/main.go:923-927 | nothing survives parsing exactly when every record is rejected |
| CashFlow.MinDateIsEarliest | nim-go-sdk/examples/hackathon-starter/main.go:906-908 | the tracked minimum is the earliest accepted date (unless one is Go's zero instant) |
| CashFlow.DayMapKeys | nim-go-sdk/examples/hackathon-starter/main.go:910-915 | one bucket per calendar day with an accepted record, each under its own day key and dated by one of its records |
| CashFlow.DayMapCounts | nim-go-sdk/examples/hackathon-starter/main.go:916-919 | each bucket counts the records of its day |
| CashFlow.DayMapAmounts | nim-go-sdk/examples/hackathon-starter/main.go:916-919 | each bucket sums the amounts of its day |
| CashFlow.InsertLast | nim-go-sdk/examples/hackathon-starter/main.go:935-937 | one insertion pass extends the sorted prefix and permutes the array |
| CashFlow.SortByDate | nim-go-sdk/examples/hackathon-starter/main.go:935-937 | sorts the buckets by date, as a permutation |
| CashFlow.CollectDays | nim-go-sdk/examples/hackathon-starter/main.go:930-933 | every bucket of the map exactly once |
| CashFlow.SortedBuckets | nim-go-sdk/examples/hackathon-starter/main.go:930-937 | sorted distinct buckets have strictly increasing dates and still hold every bucket |
| CashFlow.OrderDays | nim-go-sdk/examples/hackathon-starter/main.go:930-937 | the buckets, each once, in strictly increasing date order |
| CashFlow.NumberDays | nim-go-sdk/examples/hackathon-starter/main.go:940-943 | each day gets whole days since the minimum, plus one, with the elapsed time saturated at the largest `time.Duration` (about 292 years) as `Sub` saturates, and nothing else changes |
| CashFlow.DayNumberMonotone | nim-go-sdk/examples/hackathon-starter/main.go:941-942 | later dates never get smaller day numbers |
| CashFlow.DayNumberPositive | nim-go-sdk/examples/hackathon-starter/main.go:941-942 | a date no earlier than the minimum gets a day number of at least 1 |
| CashFlow.DayNumberSeparates | nim-go-sdk/examples/hackathon-starter/main.go:941-942 | dates a day or more apart get different day numbers while the later one is within a `Duration` of the minimum |
| CashFlow.SaturatedDaysCollide | nim-go-sdk/examples/hackathon-starter/main.go:941-942 | past the saturation different days share a number: 118338 and 118339 days after the minimum both get day 106752 |
| CashFlow.Columns | nim-go-sdk/examples/hackathon-starter/main.go:948-954 | the regressors are the day numbers and the observations the daily amounts |
| CashFlow.TrendOf | nim-go-sdk/examples/hackathon-starter/main.go:975-982 | "increasing" exactly above +0.01, "decreasing" exactly below -0.01, "stable" exactly in between |
| CashFlow.Forecast | nim-go-sdk/examples/hackathon-starter/main.go:990-1001 | one prediction per horizon day, continuing the day numbers and the calendar days after the last day |
| CashFlow.DayKeyShift | nim-go-sdk/examples/hackathon-starter/main.go:993-998 | adding n whole days moves the calendar day by n |
| CashFlow.DailyStats | nim-go-sdk/examples/hackathon-starter/main.go:1006-1024 | the total amount, the total count, and the least and greatest daily amounts |
| CashFlow.History | nim-go-sdk/examples/hackathon-starter/main.go:1029-1042 | one point per day with the line's prediction and the residual |
| CashFlow.TotalTransactions | nim-go-sdk/examples/hackathon-starter/main.go:1006-1013 | the daily counts add up to the number of accepted records |
| CashFlow.NumbersPositive | nim-go-sdk/examples/hackathon-starter/main.go:940-943 | every numbered day has a day number of at least 1 |
| CashFlow.HistorySize | nim-go-sdk/examples/hackathon-starter/main.go:1029-1042 | the history has one point per bucket |
| CashFlow.DescribedReports | nim-go-sdk/examples/hackathon-starter/main.go:946-1075 | the response reports the buckets, the fitted line, the forecast and the statistics of the accepted records |
| CashFlow.Respond | nim-go-sdk/examples/hackathon-starter/main.go:946-1075 | fails exactly when the fit fails, with the fit's message; otherwise describes the days |
| CashFlow.ErrorsDiffer | nim-go-sdk/examples/hackathon-starter/main.go:840-844 | the three error messages are different |
| CashFlow.SingleDayFails | nim-go-sdk/examples/hackathon-starter/main.go:959-965 | transactions on a single calendar day cannot be fitted |
| CashFlow.SpreadDaysFit | nim-go-sdk/examples/hackathon-starter/main.go:959-965 | two buckets a day or more apart can always be fitted when every record lies within a `Duration` of the minimum |
| CashFlow.NumberedSlice | nim-go-sdk/examples/hackathon-starter/main.go:929-943 | the buckets sorted by date and numbered from the minimum date |
| CashFlow.AnalyseDays | nim-go-sdk/examples/hackathon-starter/main.go:929-1075 | after aggregation: a single day fails, days a day apart within a `Duration` succeed, success reports on the records |
| CashFlow.AnalyseSlice | nim-go-sdk/examples/hackathon-starter/main.go:946-1075 | fitting the numbered slice: a single day fails, days a day apart within a `Duration` succeed, success reports on the records |
| CashFlow.AnalyseCashFlow | nim-go-sdk/examples/hackathon-starter/main.go:838-1075 | "no transactions" exactly for an empty list, "no valid transactions" exactly when every record is rejected, the fit error for a single day, success for days a day apart when the records span less than a `Duration` (about 292 years), and every success reports on the accepted records over the requested (or default 7-day) horizon |
| WageStats.Clean | nim-go-sdk/examples/hackathon-starter/frontend/src/pages/Dashboard.tsx:35 | the cleaned text keeps only digits, points and minus signs |
| WageStats.CleanConcat | nim-go-sdk/examples/hackathon-starter/frontend/src/pages/Dashboard.tsx:35 | cleaning works character by character and keeps the order |
| WageStats.CleanNumerals | nim-go-sdk/examples/hackathon-starter/frontend/src/pages/Dashboard.tsx:35 | text already made of numerals is left as it is |
| WageStats.CleanNothing | nim-go-sdk/examples/hackathon-starter/frontend/src/pages/Dashboard.tsx:35 | text without numerals cleans to "" |
| WageStats.ParseDecorated | nim-go-sdk/examples/hackathon-starter/frontend/src/pages/Dashboard.tsx:32-38 | a whole number with decoration around it reads as that number |
| WageStats.FormattedWage | nim-go-sdk/examples/hackathon-starter/frontend/src/pages/Dashboard.tsx:34-37 | "$2,500.00" reads as 2500 |
| WageStats.ParseNoNumerals | nim-go-sdk/examples/hackathon-starter/frontend/src/pages/Dashboard.tsx:35-37 | text without a numeral reads as 0, not as NaN |
| WageStats.Base | nim-go-sdk/examples/hackathon-starter/frontend/src/pages/Dashboard.tsx:42-43 | the floor of the position is an index of the input |
| WageStats.Quantile | nim-go-sdk/examples/hackathon-starter/frontend/src/pages/Dashboard.tsx:40-47 | NaN exactly for no data |
| WageStats.QuantileEnds | nim-go-sdk/examples/hackathon-starter/frontend/src/pages/Dashboard.tsx:40-47 | q = 0 gives the first element and q = 1 the last |
| WageStats.QuantileBetween | nim-go-sdk/examples/hackathon-starter/frontend/src/pages/Dashboard.tsx:42-46 | on sorted data the value lies between its two neighbouring elements |
| WageStats.QuantileMonotone | nim-go-sdk/examples/hackathon-starter/frontend/src/pages/Dashboard.tsx:40-47 | on sorted data a larger q never gives a smaller value |
| WageStats.QuantileWithin | nim-go-sdk/examples/hackathon-starter/frontend/src/pages/Dashboard.tsx:40-47 | on sorted data every quantile lies between the least and the greatest element |
| WageStats.Percentiles | nim-go-sdk/examples/hackathon-starter/frontend/src/pages/Dashboard.tsx:164-168 | 21 points at percentiles 0, 5, ..., 100 |
| WageStats.CurveShape | nim-go-sdk/examples/hackathon-starter/frontend/src/pages/Dashboard.tsx:164-168 | the curve starts at the lowest wage, ends at the highest and never falls |
| WageStats.BinWidth | nim-go-sdk/examples/hackathon-starter/frontend/src/pages/Dashboard.tsx:153 | a tenth of the spread, or 1 when there is none; always positive |
| WageStats.BinOf | nim-go-sdk/examples/hackathon-starter/frontend/src/pages/Dashboard.tsx:159 | every wage lands in one of the ten bins |
| WageStats.Histogram | nim-go-sdk/examples/hackathon-starter/frontend/src/pages/Dashboard.tsx:152-161 | ten counts, each the number of wages in its bin |
| WageStats.HistogramTotal | nim-go-sdk/examples/hackathon-starter/frontend/src/pages/Dashboard.tsx:158-161 | the counts add up to the number of wages |
| WageStats.BinMonotone | nim-go-sdk/examples/hackathon-starter/frontend/src/pages/Dashboard.tsx:159 | a larger wage never lands in a lower bin |
| WageStats.BinsSpan | nim-go-sdk/examples/hackathon-starter/frontend/src/pages/Dashboard.tsx:150-159 | with any spread the lowest wage opens the first bin and the highest closes the last |
| Dashboard.Rows | nim-go-sdk/examples/hackathon-starter/frontend/src/pages/Dashboard.tsx:62-73 | one row per employee, in order, each flagged valid exactly when its wage is a finite number above zero |
| Dashboard.DepartmentNamed | nim-go-sdk/examples/hackathon-starter/frontend/src/pages/Dashboard.tsx:68 | a department is never blank and has no white space around it; it is "Unassigned" when missing or blank |
| Dashboard.TextWithoutDigitsInvalid | nim-go-sdk/examples/hackathon-starter/frontend/src/pages/Dashboard.tsx:63-71 | a text wage without numerals reads as 0 and is flagged invalid |
| Dashboard.ValidRows | nim-go-sdk/examples/hackathon-starter/frontend/src/pages/Dashboard.tsx:75 | the valid rows all have usable wages |
| Dashboard.ValidPartition | nim-go-sdk/examples/hackathon-starter/frontend/src/pages/Dashboard.tsx:75-76 | valid and invalid rows split the rows, each side holding only its own kind |
| Dashboard.ValidComplete | nim-go-sdk/examples/hackathon-starter/frontend/src/pages/Dashboard.tsx:75 | every row flagged valid is among the valid rows |
| Dashboard.KpisFacts | nim-go-sdk/examples/hackathon-starter/frontend/src/pages/Dashboard.tsx:79-82 | the payroll is positive exactly when a wage is valid, and the average lies between the least and the greatest valid wage |
| Dashboard.PayrollFacts | nim-go-sdk/examples/hackathon-starter/frontend/src/pages/Dashboard.tsx:81-82 | over usable wages the payroll is positive exactly when there is a row, and the average is bounded by the extremes |
| Dashboard.WagesInCount | nim-go-sdk/examples/hackathon-starter/frontend/src/pages/Dashboard.tsx:96-100 | a department has as many wages as rows |
| Dashboard.WagesInMembers | nim-go-sdk/examples/hackathon-starter/frontend/src/pages/Dashboard.tsx:100 | each wage of a department is the wage of one of its rows |
| Dashboard.AggregateAt | nim-go-sdk/examples/hackathon-starter/frontend/src/pages/Dashboard.tsx:90-101 | after the loop the map has a record for exactly the departments seen, each their tally |
| Dashboard.Departments | nim-go-sdk/examples/hackathon-starter/frontend/src/pages/Dashboard.tsx:90-106 | the department loop and `deptAgg` give one record per department in order of first appearance |
| Dashboard.HeadcountsCoverValid | nim-go-sdk/examples/hackathon-starter/frontend/src/pages/Dashboard.tsx:90-106 | the headcounts add up to the number of valid rows |
| Dashboard.DepartmentsDistinct | nim-go-sdk/examples/hackathon-starter/frontend/src/pages/Dashboard.tsx:90-106 | the departments are distinct and every valid row's department has a record |
| Dashboard.DepartmentFacts | nim-go-sdk/examples/hackathon-starter/frontend/src/pages/Dashboard.tsx:90-106 | each record's headcount is its row count, its total the sum of its wages, its minimum and maximum their extremes, with the average between them |
| Dashboard.BoxFacts | nim-go-sdk/examples/hackathon-starter/frontend/src/pages/Dashboard.tsx:133-146 | the box runs from the department's minimum to its maximum through non-decreasing quartiles |
| Dashboard.HistogramCountsValid | nim-go-sdk/examples/hackathon-starter/frontend/src/pages/Dashboard.tsx:149-161 | the histogram counts every valid wage once |
| Dashboard.SortDesc | nim-go-sdk/examples/hackathon-starter/frontend/src/pages/Dashboard.tsx:171 | highest wage first, as a permutation of the valid rows |
| Dashboard.SortedPayroll | nim-go-sdk/examples/hackathon-starter/frontend/src/pages/Dashboard.tsx:171 | sorting keeps the payroll and the positive wages |
| Dashboard.TopVsRestFacts | nim-go-sdk/examples/hackathon-starter/frontend/src/pages/Dashboard.tsx:171-175 | top and rest add up to the payroll, and every top wage is at least every other wage |
| Dashboard.Pareto | nim-go-sdk/examples/hackathon-starter/frontend/src/pages/Dashboard.tsx:178-184 | the first fifteen sorted rows, each with its name (or "Emp n") and the running share of the payroll |
| Dashboard.ParetoShare | nim-go-sdk/examples/hackathon-starter/frontend/src/pages/Dashboard.tsx:178-184 | the running share rises strictly, stays within (0, 100] and reaches 100 at the last row |
| Dashboard.CoverageFacts | nim-go-sdk/examples/hackathon-starter/frontend/src/pages/Dashboard.tsx:199-204 | present and missing add up to the headcount, and the missing rows are exactly those without a recipient |
| Dashboard.CountsAt | nim-go-sdk/examples/hackathon-starter/frontend/src/pages/Dashboard.tsx:207-211 | the map counts exactly the recipients seen, each by its number of rows |
| Dashboard.RecipientCounts | nim-go-sdk/examples/hackathon-starter/frontend/src/pages/Dashboard.tsx:207-212 | the counting loop gives each recipient with its count, in order of first appearance |
| Dashboard.CountsOfFacts | nim-go-sdk/examples/hackathon-starter/frontend/src/pages/Dashboard.tsx:207-212 | the entries name non-empty recipients, each once |
| Dashboard.FirstRepeatedFacts | nim-go-sdk/examples/hackathon-starter/frontend/src/pages/Dashboard.tsx:212-215 | at most ten entries, each repeated; when fewer than ten, every repeated entry is kept |
| Dashboard.DuplicateFacts | nim-go-sdk/examples/hackathon-starter/frontend/src/pages/Dashboard.tsx:206-215 | at most ten recipients, each named by that many rows; with fewer, every recipient named twice or more is listed |
| JsText.TrimEmpty | nim-go-sdk/examples/hackathon-starter/frontend/src/pages/RunPayroll.tsx:174 | a string trims to "" exactly when it is all white space |
| JsText.TrimIdempotent | nim-go-sdk/examples/hackathon-starter/frontend/src/pages/RunPayroll.tsx:174 | trimming twice is trimming once |
| JsText.LowerIdempotent | nim-go-sdk/examples/hackathon-starter/frontend/src/pages/RunPayroll.tsx:174 | a lower-cased string has no capital left and lower-cases to itself |
| JsText.TrimLower | nim-go-sdk/examples/hackathon-starter/frontend/src/pages/RunPayroll.tsx:174 | trimming and lower-casing can be done in either order |
| JsText.IncludesWithin | nim-go-sdk/examples/hackathon-starter/frontend/src/pages/RunPayroll.tsx:179-181 | a string found in part of a text is found in the whole text |
| JsText.DecimalValue | nim-go-sdk/examples/hackathon-starter/frontend/src/pages/Dashboard.tsx:183 | reading back the decimal rendering of a whole number gives the number |
| JsText.WholeRoundTrip | nim-go-sdk/examples/hackathon-starter/frontend/src/pages/Dashboard.tsx:36 | `Number` reads a whole number, with or without a minus sign, from its decimal text |
| JsText.FractionValue | nim-go-sdk/examples/hackathon-starter/frontend/src/pages/Dashboard.tsx:36 | digits, a point and digits read as the whole part plus the fraction |
| JsText.TwoPointsNaN | nim-go-sdk/examples/hackathon-starter/frontend/src/pages/Dashboard.tsx:36-37 | text with two points is NaN |
| Commands.CatalogueFacts | nim-go-sdk/examples/hackathon-starter/frontend/src/pages/RunPayroll.tsx:19-141 | 18 commands, none under "Key Features"; exactly the three money movements require confirmation and carry the confirmation note |
| Commands.Chips | nim-go-sdk/examples/hackathon-starter/frontend/src/pages/RunPayroll.tsx:167-171 | "All" followed by the categories in order of first appearance |
| Commands.ChipsFacts | nim-go-sdk/examples/hackathon-starter/frontend/src/pages/RunPayroll.tsx:167-171 | "All" first, then distinct categories: every command's category, and only those |
| Commands.FilteredExactly | nim-go-sdk/examples/hackathon-starter/frontend/src/pages/RunPayroll.tsx:173-183 | a command is shown exactly when it is in the selected category and the trimmed, lower-cased query occurs in its name, description or notes |
| Commands.BlankQueryShowsAll | nim-go-sdk/examples/hackathon-starter/frontend/src/pages/RunPayroll.tsx:174-178 | a blank query with "All" shows every command, in order |
| Commands.QueryNormalised | nim-go-sdk/examples/hackathon-starter/frontend/src/pages/RunPayroll.tsx:174 | lower-casing or trimming the query beforehand changes nothing |
| Commands.GroupBy | nim-go-sdk/examples/hackathon-starter/frontend/src/pages/RunPayroll.tsx:185-189 | the map has a key for exactly the categories with a shown command, each holding those commands in order |
| Commands.ArrangeSections | nim-go-sdk/examples/hackathon-starter/frontend/src/pages/RunPayroll.tsx:199-201 | arranging the map in the fixed order gives the sections of the shown commands |
| Commands.Grouped | nim-go-sdk/examples/hackathon-starter/frontend/src/pages/RunPayroll.tsx:173-202 | the grouped sections of the filtered commands in the fixed category order |
| Commands.SectionsMembers | nim-go-sdk/examples/hackathon-starter/frontend/src/pages/RunPayroll.tsx:199-201 | every section is non-empty, of a listed category, and holds exactly that category's shown commands |
| Commands.SectionsOrdered | nim-go-sdk/examples/hackathon-starter/frontend/src/pages/RunPayroll.tsx:192-201 | sections follow the fixed order, each category once |
| Commands.GroupedFacts | nim-go-sdk/examples/hackathon-starter/frontend/src/pages/RunPayroll.tsx:173-202 | the page's sections are non-empty, never "Key Features", and in the fixed order |
| Commands.SectionsTotal | nim-go-sdk/examples/hackathon-starter/frontend/src/pages/RunPayroll.tsx:204 | the shown total counts the filtered commands whose category is listed |
| Commands.TotalShownCount | nim-go-sdk/examples/hackathon-starter/frontend/src/pages/RunPayroll.tsx:204 | without "Key Features" commands the shown total is the number of filtered commands |
| Commands.KeyFeaturesHidden | nim-go-sdk/examples/hackathon-starter/frontend/src/pages/RunPayroll.tsx:192-204 | a "Key Features" command passes the filter but is in no section and not counted |

## Left out

- Network, agent and logging: the SDK server, the `get_transactions` call, its error branches and every `log` call. The fetched payload is a parameter.
- The employee CRUD tools and the SQLite storage. The directory is a parameter in `ListEmployees` order, and a failing `ListEmployees` (`log.Fatal`) is not modelled.
- Floating point: every number is a mathematical real. NaN and infinities appear only where the dashboard tests for them. Rounding (`toFixed`, `Math.Round`, `%.2f`) and `math.Sqrt` are not modelled, so reported figures are the unrounded values.
- Time zones: times are UTC seconds, so `Local()` is not modelled. `time.Parse` for each layout is a parser parameter. Go's `Format("2006-01-02")` is the day index `t / 86400`.
- Payroll.RemoveOld: the 14-day cut-off never filters anything as written (the shadowing), so the clock is not modelled.
- Payroll.PayrollCheck and Payroll.DoPayroll: require that every decoded transaction has string `createdAt` and `note` fields, because Go panics on the type assertions otherwise.
- Segments.MonthSlicer: requires the income slice to be at least as long as the days. Go indexes `income[i]` past its end and panics on a shorter one. The one caller builds both from the same days.
- CashFlow.DayNumberSeparates, CashFlow.SpreadDaysFit and the "spread days succeed" clauses of CashFlow.AnalyseDays, CashFlow.AnalyseSlice and CashFlow.AnalyseCashFlow: hold only when the records lie within a `Duration` (about 292 years) of the earliest one. Beyond that Go's `Sub` saturates, different days can share a day number (CashFlow.SaturatedDaysCollide) and the fit may fail.
- Segments.ProjectCashFlow: requires at least one slice, because Go divides 0 by 0 (NaN) for an empty list.
- Ols.OlsModel.CalculateMse: requires at least one observation, because Go gives NaN for none. Both it and CalculateR2 require no more observations than inputs, because Go panics otherwise.
- CashFlow.CollectDays: Go's map iteration order is unspecified. The model proves only that every bucket appears once, and the date sort then fixes the order.
- CashFlow.MinDateIsEarliest: holds only when no accepted record is dated at Go's zero instant, which resets the tracking as written.
- The cash-flow response is a record with the reported fields, not a `map[string]interface{}`. The forecast's dates are day indices.
- `OLSAnalytic.py`, the other React pages, the chart components, the sort orders of the department charts, the histogram's bucket labels and the scatter data are not part of this model.
- WageStats.Quantile: requires 0 <= q <= 1. The page only calls it with such q.
- JsText.StringToNumber: modelled for text of digits, points and minus signs (what cleaning leaves) without exponents. It is exact decimal arithmetic.
- JsText.Lower: lower-cases only the Latin capitals A-Z.
- Dashboard.Departments: JavaScript mutates the department objects through the map by reference. The model writes the updated record back into a map of values.
- Dashboard.SortDesc: is stable as JavaScript's sort is, but stability is not stated as a separate lemma.
- Commands.CatalogueFacts: only the catalogue's size, categories and confirmation notes are proved. The distinctness of the ids is not stated. A missing `requiresConfirmation` is `false`.
- The `FEATURES` cards, `copyToClipboard` and the copy feedback of the command reference are user-interface code.
