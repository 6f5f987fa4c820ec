# Payroll tracker: a Dafny model of its record store

The payroll tracker is a single-page application. It keeps an ordered list
of employee records. Each record has a weekly salary, this week's bonus and
deductions, a "paid this week" flag and a ledger of past payouts. The user
can add an employee, edit the salary, set a bonus or deduction, mark the
week paid, show or hide the ledger, remove an employee and export every
ledger entry to a spreadsheet. On start-up every record is rolled over: a
record last seen in an earlier week gets its flag, bonus and deductions
reset.

This project models that core:

- `week.dfy` (module `Week`): the week window. Days are integers counted
  from 1 January 1970, a Thursday. `GetDay` is the Sunday-first weekday
  that `Date.getDay` reports. `MondayOf` steps back `(getDay() + 6) % 7`
  days. A rendered date (`toLocaleDateString("ru-RU")`) is kept as the day
  it renders, `Formatted(day)`. The rendering is one-to-one, so two labels
  are equal exactly when their days are. `CurrentWeekRange` is the
  step-by-step computation, proved against the function `WeekOf`.
- `payroll.dfy` (module `Payroll`): the employee record and the pure list
  transformations behind each action: rollover, mark-paid, add, remove,
  the three field setters and the history toggle. All the id-based updates
  share one function, `UpdateWhere`, which is the source's
  `prev.map(el => el.id === id ? … : el)`. The file also holds an
  invariant that every action keeps: a paid record has a ledger entry and
  a payment date.
- `export.dfy` (module `Export`): the rows the export builds from the
  ledgers before it hands them to the spreadsheet writer.
- `store.dfy` (module `Store`): the component's state as a class. It holds
  the list, which every event handler replaces wholesale, and the two
  fields of the add-employee form.
- `scenarios.dfy` (module `Scenarios`): workflows made of several actions.

Money is an `int`. A record's `bonus` and `deductions` are `Option<int>`.
`None` stands for a field missing from a stored record, and the payout
counts it as 0, as `emp.bonus || 0` does. The current day and the rendered
"today" label are parameters. The component computes "today" when it
renders and the week window when the handler runs, so they are separate
inputs. Ids are parameters too, because the source takes them from the
clock. The prompt answers and the removal confirmation are also parameters
(`Option<int>` and `bool`).

Some behaviours of the code worth knowing:

- Adding checks only that the name and salary fields are non-empty. A
  negative salary is accepted.
- Ids are not guaranteed unique. Every update and the removal act on all
  records with the given id.
- The last ledger amount of a paid record stops matching its payout once
  the bonus or deductions are edited after payment; the ledger keeps the
  amount paid. `BonusAfterPaymentIsNotPaid` shows this.
- A corrupt stored value is not turned into an empty list: the code parses
  it without any guard. Parsing is outside the model.

## Model

| member | source | states |
|---|---|---|
| Week.GetDay | src/App.jsx:8 | the weekday lies in 0..6 |
| Week.DaysSinceMonday | src/App.jsx:8 | the step back to Monday lies in 0..6 and is zero exactly on a Monday |
| Week.MondayOf | src/App.jsx:8 | the computed Monday falls on a Monday and is 0 to 6 days at or before the reference day |
| Week.MondaysAWeekApart | src/App.jsx:8 | two Mondays less than seven days apart are the same day |
| Week.MondayOfUnique | src/App.jsx:8 | the computed Monday is the only Monday at most six days before the reference day |
| Week.SameWeek | src/App.jsx:5-15 | two days get the same week window exactly when the second lies in the first's Monday-to-Sunday span |
| Week.CurrentWeekRange | src/App.jsx:5-15 | the start label is a Monday 0 to 6 days at or before the reference day, the end label is that Monday plus six days, and the result is the week window of the day |
| Payroll.Payout | src/App.jsx:69 | a deduction larger than salary plus bonus gives a negative payout (no clamping); with no bonus and no deductions the payout is the salary |
| Payroll.UpdateWhere | src/App.jsx:164-168 | the list keeps its length and order, records with another id are unchanged, and each record with the id is replaced by the update applied to it |
| Payroll.Roll | src/App.jsx:34-37 | the record ends with the current week-start; if it already had it the record is untouched, otherwise paid, bonus and deductions are reset to false, 0 and 0 and every other field is kept |
| Payroll.Rollover | src/App.jsx:32-38 | the list keeps its length and order, and each position holds the rollover of the record that was there |
| Payroll.RolloverIdempotent | src/App.jsx:34-37 | rolling over twice against the same week-start gives the same list as rolling over once |
| Payroll.RolloverSameWeek | src/App.jsx:31-37 | a second rollover on any day of the same Monday-to-Sunday week changes nothing |
| Payroll.Pay | src/App.jsx:68-75 | an already paid record is returned unchanged; otherwise it becomes paid, is stamped with today's date and gains exactly one ledger entry for this week of salary + bonus − deductions (missing ones as 0), after its earlier entries, all other fields kept |
| Payroll.MarkPaid | src/App.jsx:65-78 | the list keeps its length; records with another id and already paid records are unchanged; every matching record is paid afterwards, and each unpaid match is paid with exactly one new ledger entry |
| Payroll.MarkPaidIdempotent | src/App.jsx:68 | once a record is marked paid, a second mark-paid changes nothing, whatever week and today labels it is given |
| Payroll.MarkPaidAppendsOnly | src/App.jsx:74 | every record's old ledger is a prefix of its new one, and the ledger grows by one entry for an unpaid match and by none otherwise |
| Payroll.NewEmployee | src/App.jsx:46-57 | the new record has the given id, name and salary; it is unpaid with bonus 0, deductions 0, no payment date, an empty ledger and the ledger hidden; it was added today and last rolled over in the current week |
| Payroll.AddEmployee | src/App.jsx:42-58 | with an empty name or salary field the list is unchanged; otherwise exactly one new record is appended at the end and the existing records are unchanged |
| Payroll.Remove | src/App.jsx:84 | the result holds every record whose id differs, as often as the list did, and no record with the id; it keeps their relative order; an absent id leaves the list unchanged |
| Payroll.SetSalary | src/App.jsx:163-169 | only records with the id change, and only their salary, which becomes the new value; length and order kept |
| Payroll.SetBonus | src/App.jsx:182-186 | only records with the id change, and only their bonus, which becomes the answer; length and order kept |
| Payroll.SetDeductions | src/App.jsx:196-200 | only records with the id change, and only their deductions, which become the answer; length and order kept |
| Payroll.ToggleHistory | src/App.jsx:216-220 | only records with the id change, and only their history-view flag, which flips |
| Payroll.ToggleHistoryTwice | src/App.jsx:218 | toggling the history view twice restores the list |
| Payroll.AddKeepsPaidRecorded | src/App.jsx:44-57 | adding keeps "every paid record has a ledger entry and a payment date" |
| Payroll.RolloverKeepsPaidRecorded | src/App.jsx:32-38 | the rollover keeps that invariant |
| Payroll.MarkPaidKeepsPaidRecorded | src/App.jsx:65-78 | mark-paid keeps that invariant |
| Payroll.RemoveKeepsPaidRecorded | src/App.jsx:84 | removal keeps that invariant |
| Payroll.SettersKeepPaidRecorded | src/App.jsx:163-220 | the salary, bonus and deduction setters and the history toggle keep that invariant |
| Export.RowsOf | src/App.jsx:90-94 | one row per ledger entry, in ledger order, each with the employee's name and that entry's week and amount |
| Export.ExportRows | src/App.jsx:89-95 | the number of rows is the total number of ledger entries across all records |
| Export.ExportRowsAppend | src/App.jsx:89-95 | exporting two lists in turn gives the rows of the first followed by the rows of the second |
| Export.ExportRowAt | src/App.jsx:89-95 | entry j of employee k is the row at the position after all earlier employees' entries plus j, carrying that employee's name and that entry's week and amount |
| Export.ExportRowFrom | src/App.jsx:89-95 | every row is such an entry of one employee, at exactly that position |
| Export.MarkPaidAddsRows | src/App.jsx:63-80 | a mark-paid adds one exported row for each matching record that was not yet paid, and no other |
| Store.EmployeeStore.constructor | src/App.jsx:18-23 | the list is the saved one, or empty when nothing is saved; both form fields start empty |
| Store.EmployeeStore.SetNameInput | src/App.jsx:113 | the pending name becomes the typed text |
| Store.EmployeeStore.SetSalaryInput | src/App.jsx:120 | the pending salary becomes the typed value |
| Store.EmployeeStore.RollOver | src/App.jsx:30-40 | the list becomes its rollover against the week-start of the current day: same length, every record on the current week |
| Store.EmployeeStore.AddEmployee | src/App.jsx:42-61 | the list becomes the add of the form's name and salary; on success both form fields are cleared, otherwise the form is untouched |
| Store.EmployeeStore.TogglePaid | src/App.jsx:63-80 | the list becomes its mark-paid for the current week, and the number of ledger entries grows by the number of unpaid matches |
| Store.EmployeeStore.RemoveEmployee | src/App.jsx:82-86 | the list loses the records with the id only if the user confirmed |
| Store.EmployeeStore.EditSalary | src/App.jsx:163-169 | the list becomes its salary update |
| Store.EmployeeStore.AskBonus | src/App.jsx:179-187 | a cancelled prompt changes nothing; an answer sets the bonus of the matching records |
| Store.EmployeeStore.AskDeductions | src/App.jsx:193-201 | a cancelled prompt changes nothing; an answer sets the deductions of the matching records |
| Store.EmployeeStore.ToggleHistoryView | src/App.jsx:215-221 | the list becomes its history toggle |
| Store.EmployeeStore.ExportData | src/App.jsx:88-95 | the rows for the spreadsheet, one per ledger entry across all records |
| Scenarios.PayoutOfExample | src/App.jsx:69 | salary 1000, bonus 200 and deductions 300 pay out 900 |
| Scenarios.BonusAfterPaymentIsNotPaid | src/App.jsx:42-80 | an employee added, paid, given a bonus and paid again in the same week keeps one ledger entry of the bare salary |
| Scenarios.NextWeekPaysAgain | src/App.jsx:30-80 | after a rollover into a later week the employee is paid again: a second entry for the new week, of salary plus the new bonus, after the first entry |
| Scenarios.PayTwiceOneRow | src/App.jsx:63-95 | paying a new employee twice in a week exports exactly one row, of that week's payout |

## Left out

- Rendering, styling and the per-day figure `weeklySalary / 5` with `toFixed`: presentation and floating-point formatting.
- Reading and writing browser storage, and `JSON.parse` / `JSON.stringify`: browser I/O. The constructor takes the already parsed saved list, or None when nothing is saved.
- The spreadsheet writer, `Blob` and `saveAs`: third-party code. Only the row list handed to them is modelled.
- The `confirm` and `prompt` dialogs: their answers are parameters.
- `parseFloat` and NaN: every amount is an integer, and an empty salary field is None.
- `Date`, the local time zone and the locale's date format: days are integers and labels are `Formatted(day)`. The history label `start–end` is kept as the pair of labels.
- The React scheduling: the rollover effect runs only once, at mount. Here it is an explicit method that the caller invokes.
- `Date.now()` ids: the id is a parameter.
