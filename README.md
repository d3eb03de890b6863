# HR front-end dialogs: a verified model

This project models the business rules of three dialogs of an HR web front-end:

- **KPI / incentive calculator** (`KPIModal.js`). A manager enters four category scores: quality, productivity, collaboration and goal achievement. Each edit is clamped to 0..100. The weights are fixed at 25 each. The total KPI is the explicit four-term weighted sum, capped at 100. The incentive is total × base rate, capped at a maximum. A three-band rating is derived from the total. Saving hands the state plus the two derived figures to the caller.
- **Monthly payslip download** (`MonthlyPayslipDownload.js`). The fetched payroll list is filtered to the selected month and year. After that, an employee caller only ever sees their own records. Any other caller sees the employee chosen in the drop-down, or everyone when none is chosen. A single download makes one call to the external PDF generator. A batch download calls it once per record, in list order. A failure does not stop the batch. There is a 500 ms pause after each success, and the dialog counts successes and failures.
- **Goal progress update** (`EmployeeGoalModal.js`). The form is seeded from the goal. A submission with progress outside 0..100 is rejected without any update call. Progress 100 forces the submitted status to `completed`. A "mark as completed" shortcut sets both fields. The dialog also shows an overdue flag and a progress bar.

Each dialog is a module: `Kpi`, `Payslips` and `Goals`. Numbers are Dafny `real`/`int`, so arithmetic is exact. The component's React state is a class. Its fields are the state record, the busy flags, and an event log of what the dialog does to the outside world: generator calls, pauses, update calls, cache invalidation, toasts and closing. Each handler is a method. Its postcondition gives the new state as a pure function of the old one. The properties are proved about those functions. `Sequences.Filter` models `Array.prototype.filter` and is shared. `Wrappers` holds `Option` (for `undefined`, `null` and `NaN`), JavaScript's `||` with a fallback, and the two toast kinds. The goal's progress, whose `null` and `undefined` differ in the progress bar, is a three-way `Goals.JsNumber`.

The environment is passed in as parameters:
- the signed-in user;
- the current month and year, and `now` for the overdue check;
- the values `parseFloat`/`parseInt` produced, as `Option` (`None` is `NaN`);
- the fetched payroll list;
- the outcome of the update call;
- the PDF generator, as a function `Payroll -> bool` (true is success).

Points of the code's behaviour that are easy to misread:
- The batch pauses only after a successful generation: the 500 ms delay sits inside the `try`, after the success count (MonthlyPayslipDownload.js:102-105), so a failed item is followed directly by the next call.
- Missing or empty payroll data gets an error toast and nothing else (MonthlyPayslipDownload.js:91-94).
- The goal dialog chooses the "completed" message from the form's status field, not from the status it submitted (EmployeeGoalModal.js:31). `Goals.AutoCompletedShowsPlainMessage` states the resulting behaviour.
- The rate and cap edits store `parseInt(value) || 0` (KPIModal.js:195, 205): 0 for non-numeric input, and a negative value is kept as it is.

## Model

| member | source | states |
|---|---|---|
| `Sequences.Filter` | client/src/components/MonthlyPayslipDownload.js:56-58 | The result holds exactly the elements that satisfy the condition, each with its full multiplicity, and is an order-preserving subsequence of the input |
| `Sequences.FilterTwice` | client/src/components/MonthlyPayslipDownload.js:56-69 | Two chained filters equal one filter by the conjunction of their conditions |
| `Payslips.VisiblePayrolls` | client/src/components/MonthlyPayslipDownload.js:56-72 | The query result is an order-preserving subsequence of the fetched list. Every record in it matches the selected month and year, with its full multiplicity. For an employee caller the members are exactly the in-period records with the caller's id. For any other caller they are the in-period records, further restricted to the chosen id when one is chosen (a `NaN` id keeps nothing) |
| `Payslips.EmployeeIgnoresSelection` | client/src/components/MonthlyPayslipDownload.js:61-64 | For an employee caller the result does not depend on the drop-down, and every record belongs to the caller |
| `Payslips.Years` | client/src/components/MonthlyPayslipDownload.js:24-25 | The year choices are the current year and the two before it, newest first |
| `Payslips.MonthsInOrder` | client/src/components/MonthlyPayslipDownload.js:27-40 | The month table lists months 1 to 12 in order, each with a non-empty name |
| `Payslips.FindMonth` | client/src/components/MonthlyPayslipDownload.js:123 | `find` returns nothing exactly when no entry has the value; otherwise it returns the first entry that has it |
| `Payslips.SelectedMonthName` | client/src/components/MonthlyPayslipDownload.js:122-124 | The month's name for 1..12 and the empty string for any other value |
| `Payslips.Summary` | client/src/components/MonthlyPayslipDownload.js:114-119 | The closing toasts hold only toasts: a success toast with the count iff that count is positive, and an error toast with the count iff that count is positive |
| `Payslips.AttemptsCallEachOnce` | client/src/components/MonthlyPayslipDownload.js:100-110 | The batch loop calls the generator exactly once per record, in list order, whatever the outcomes; a failure does not stop the run |
| `Payslips.CountsCoverBatch` | client/src/components/MonthlyPayslipDownload.js:97-110 | The success count plus the failure count is the number of records |
| `Payslips.PauseOnlyAfterSuccess` | client/src/components/MonthlyPayslipDownload.js:101-108 | Every pause is 500 ms and directly follows a successful call; a call is followed by a pause exactly when it succeeded |
| `Payslips.BatchCallsEachOnce` | client/src/components/MonthlyPayslipDownload.js:100-119 | The whole batch, closing toasts included, makes exactly the per-record calls in list order |
| `Payslips.EmployeeBatchOnlyOwn` | client/src/components/MonthlyPayslipDownload.js:61-110 | A batch over an employee's query result only generates that employee's payslips for the selected period |
| `Payslips.PayslipDialog.constructor` | client/src/components/MonthlyPayslipDownload.js:16-21 | The dialog opens on the current month and year with all employees, no busy flag set and nothing logged |
| `Payslips.PayslipDialog.DownloadSingle` | client/src/components/MonthlyPayslipDownload.js:77-88 | One generator call, then a success or an error toast by its outcome; the busy flag is clear afterwards on both paths |
| `Payslips.PayslipDialog.DownloadAll` | client/src/components/MonthlyPayslipDownload.js:90-120 | Missing or empty data logs one error toast and changes no flag. Otherwise the log gains the batch events (calls, pauses after successes, summary toasts with the counts), and the batch flag ends clear |
| `Wrappers.OrFallback` | client/src/components/KPIModal.js:7-24 | JavaScript `x || fallback`: the value when present and not the type's falsy value (0 or the empty string), the fallback otherwise |
| `Kpi.InitialKpiData` | client/src/components/KPIModal.js:5-25 | All four weights are 25. Scores are taken from the seed unclamped, 0 when absent. The rate and cap come from the seed when present and non-zero, and are 1000 and 50000 otherwise, so neither starts at 0 |
| `Kpi.WithScore` | client/src/components/KPIModal.js:44 | Writing one score changes that score only; the other scores, the weights, the rate and the cap are unchanged |
| `Kpi.ClampScore` | client/src/components/KPIModal.js:43 | The stored score lies in 0..100: non-numeric input gives 0, in-range input is kept, above 100 gives 100, below 0 gives 0 |
| `Kpi.ParsedIntOrZero` | client/src/components/KPIModal.js:195-205 | A rate or cap edit stores the parsed integer as is, negative values included, and 0 for non-numeric input |
| `Kpi.InputChangeKeepsInvariant` | client/src/components/KPIModal.js:42-45 | A score edit never changes the weights, rate or cap, and keeps all scores in 0..100 when they were |
| `Kpi.TotalKpi` | client/src/components/KPIModal.js:27-34 | The total is the minimum of the weighted sum and 100; it is below 100 exactly when the weighted sum is |
| `Kpi.EqualWeightsAverage` | client/src/components/KPIModal.js:27-34 | With the fixed weights the total is the average of the four scores, capped at 100; with in-range scores it is exactly the average and lies in 0..100 |
| `Kpi.TotalNonNegative` | client/src/components/KPIModal.js:27-34 | Non-negative scores and weights give a total in 0..100 |
| `Kpi.Incentive` | client/src/components/KPIModal.js:36-40 | The incentive never exceeds the cap and is either total × rate or the cap; it equals total × rate exactly when that product is at most the cap |
| `Kpi.RatingOf` | client/src/components/KPIModal.js:225-226 | Excellent iff total ≥ 80, Good iff 60 ≤ total < 80, Needs Improvement iff total < 60 |
| `Kpi.WorkedExample` | client/src/components/KPIModal.js:27-40 | Scores 90/70/80/60 at the default rate and cap give total 75, uncapped incentive 75000, incentive 50000 and rating Good |
| `Kpi.KpiDialog.constructor` | client/src/components/KPIModal.js:5-25 | The dialog starts in the seeded state |
| `Kpi.KpiDialog.HandleInputChange` | client/src/components/KPIModal.js:42-45 | The named score takes the clamped value and nothing else changes |
| `Kpi.KpiDialog.SetBaseIncentiveRate` | client/src/components/KPIModal.js:195 | Only the rate changes; it becomes the parsed integer or 0 |
| `Kpi.KpiDialog.SetMaxIncentive` | client/src/components/KPIModal.js:205 | Only the cap changes; it becomes the parsed integer or 0 |
| `Kpi.KpiDialog.HandleSave` | client/src/components/KPIModal.js:47-58 | The saved record holds the state unchanged, the capped total (at most 100) and the capped incentive (at most the cap) |
| `Goals.FormFromGoal` | client/src/components/EmployeeGoalModal.js:16-24 | Progress is the goal's, or 0; notes are the goal's, or empty. Status is the goal's when non-empty and `pending` otherwise, so it is never empty |
| `Goals.InitialForm` | client/src/components/EmployeeGoalModal.js:8-12 | Without a goal the form is 0 / `pending` / empty; with one it equals the seeding from that goal |
| `Goals.Changed` | client/src/components/EmployeeGoalModal.js:62-68 | Only the named field is written. Progress becomes the parsed integer (0 for non-numeric input) with no clamping; status and notes take the value verbatim |
| `Goals.MarkedCompleted` | client/src/components/EmployeeGoalModal.js:70-76 | The status becomes `completed` and the progress 100; the notes are unchanged |
| `Goals.SubmitPayload` | client/src/components/EmployeeGoalModal.js:48-57 | Rejected iff progress is outside 0..100. Otherwise progress and notes pass through unchanged. The sent status is `completed` iff progress is 100 or the form already said so, and is the form's status whenever progress is not 100 |
| `Goals.SubmitEvents` | client/src/components/EmployeeGoalModal.js:45-60 | A submit logs exactly one event. When progress is in 0..100 it is the update call for the shown goal's id, carrying the submitted body. Otherwise it is the validation error toast, and no call is made |
| `Goals.FullProgressCompletes` | client/src/components/EmployeeGoalModal.js:53-59 | With progress 100 the call always sends `completed`, whatever the status field holds |
| `Goals.MarkThenSubmit` | client/src/components/EmployeeGoalModal.js:70-76 | After the shortcut, a submit passes validation, sends progress 100 and `completed` with the notes unchanged, and chooses the completion message |
| `Goals.SuccessNotice` | client/src/components/EmployeeGoalModal.js:31-35 | The completion message iff the form's status is `completed`, and the plain update message otherwise |
| `Goals.AutoCompletedShowsPlainMessage` | client/src/components/EmployeeGoalModal.js:31-57 | Progress 100 with the field on `in_progress` sends `completed` but shows the plain update message |
| `Goals.FailureMessage` | client/src/components/EmployeeGoalModal.js:40 | The error text is the server's message when it is non-empty, and the fixed fallback otherwise; it is never empty |
| `Goals.SettledEvents` | client/src/components/EmployeeGoalModal.js:29-41 | Neither outcome makes another update call. The cache is invalidated, the success toast shown and the dialog closed exactly on success, as exactly three events: invalidation, the success toast, closing. No error toast appears on success. Failure logs a single error toast with the server's message or the fallback |
| `Goals.OverdueFacts` | client/src/components/EmployeeGoalModal.js:102 | A goal is overdue when it has a target date before `now` and its status is not `completed`. So a completed goal and a goal without a date are never overdue, and an overdue goal stays overdue later |
| `Goals.BarColourOf` | client/src/components/EmployeeGoalModal.js:172-177 | Green iff progress ≥ 100, blue iff 75..99, yellow iff 50..74, red iff below 50, `null` or `undefined` |
| `Goals.BarColourMonotone` | client/src/components/EmployeeGoalModal.js:172-177 | More progress never gives a lower colour band |
| `Goals.BarWidth` | client/src/components/EmployeeGoalModal.js:178 | An `undefined` progress gives `NaN` (no width) and a `null` one gives 0. A number gives a width at most 100 and at most the progress, equal to the progress exactly when that is at most 100 |
| `Goals.GoalDialog.constructor` | client/src/components/EmployeeGoalModal.js:8-12 | The dialog keeps the goal prop; the form starts as `InitialForm` of it, with nothing logged |
| `Goals.GoalDialog.OnGoalChanged` | client/src/components/EmployeeGoalModal.js:16-24 | The new goal prop is kept; a present goal reseeds the form from it, an absent one leaves the form unchanged |
| `Goals.GoalDialog.HandleChange` | client/src/components/EmployeeGoalModal.js:62-68 | The form becomes `Changed` of the old form |
| `Goals.GoalDialog.MarkAsCompleted` | client/src/components/EmployeeGoalModal.js:70-76 | The form becomes `MarkedCompleted` of the old form |
| `Goals.GoalDialog.HandleSubmit` | client/src/components/EmployeeGoalModal.js:45-60 | Called only while a goal is shown; the form is untouched and the log gains the submit's single event for that goal's id |
| `Goals.GoalDialog.OnUpdateSettled` | client/src/components/EmployeeGoalModal.js:26-43 | The form is untouched and the log gains the success or failure events, with the message chosen from the current form |

## Left out

- Rendering, CSS classes, icons, the priority colour and status icon helpers, and opening and closing of the dialogs: presentation only. The "Download All" button shows only for more than one record and is disabled while busy; the handler itself is modelled.
- The select `onChange` setters for month, year and employee: each writes its field and nothing else.
- The react-query plumbing (`useQuery` enable flags, refetch, query keys) and the HTTP calls. The fetched list is an input. The update call is a logged `Mutate` event, and its outcome is the input to `OnUpdateSettled`.
- The user list for the employee drop-down: it only populates the options.
- The internals of the PDF generator. It is a function from record to success. So the model cannot express a generator that fails once and succeeds on a later call for the same record.
- Real time, the `setTimeout` delay and overlapping asynchronous clicks. A pause is a logged event. While a call is awaited the busy flag is set, but that interval is not modelled.
- Clock and locale formatting: `Date`, the save timestamp, `toLocaleString`, `toFixed(1)`. The current month, year and `now` are parameters. Dates are integer timestamps; an unparsable date string is not modelled.
- Floating point, `Infinity`, and how `parseFloat`/`parseInt` read strings. Parsed values are given as `Option`.
- Toast wording and `console.error`. Only the kind of toast and the data it reports are modelled.
- `Payslips.PayslipDialog.DownloadSingle`: the success toast names the employee; the model records the payroll record instead of the name.
