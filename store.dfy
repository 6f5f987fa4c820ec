/** The state the payroll component holds: the ordered list of employee
    records, replaced wholesale on every action, and the two fields of the
    "add employee" form. Each method is one event handler. */
module Store {
  import opened Week
  import opened Payroll
  import opened Export

  class EmployeeStore {
    var employees: seq<Employee>
    /** The pending employee name. */
    var nameInput: string
    /** The pending weekly salary; None while the field is empty. */
    var salaryInput: Option<int>

    /** Start-up: the saved list if storage holds one, otherwise none; both form fields empty. */
    constructor (saved: Option<seq<Employee>>)
      ensures employees == (if saved.Some? then saved.value else [])
      ensures nameInput == [] && salaryInput == None
    {
      employees := if saved.Some? then saved.value else [];
      nameInput := [];
      salaryInput := None;
    }

    /** The name field's onChange. */
    method SetNameInput(text: string)
      modifies this`nameInput
      ensures nameInput == text
    {
      nameInput := text;
    }

    /** The salary field's onChange. */
    method SetSalaryInput(value: Option<int>)
      modifies this`salaryInput
      ensures salaryInput == value
    {
      salaryInput := value;
    }

    /** The effect run at start-up: roll every record over to the week of `now`. */
    method RollOver(now: int)
      modifies this`employees
      ensures employees == Rollover(old(employees), WeekOf(now).start)
      ensures |employees| == |old(employees)|
      ensures forall i :: 0 <= i < |employees| ==> employees[i].lastWeek == WeekOf(now).start
    {
      var week := CurrentWeekRange(now);
      employees := Rollover(employees, week.start);
    }

    /** addEmployee: append a record built from the form, then clear the
        form; with an empty field, nothing happens. */
    method AddEmployee(id: int, today: DateText, now: int)
      modifies this
      ensures employees == Payroll.AddEmployee(old(employees), old(nameInput), old(salaryInput), id, today, WeekOf(now).start)
      ensures AddAccepted(old(nameInput), old(salaryInput)) ==> nameInput == [] && salaryInput == None
      ensures !AddAccepted(old(nameInput), old(salaryInput)) ==> nameInput == old(nameInput) && salaryInput == old(salaryInput)
    {
      if !AddAccepted(nameInput, salaryInput) {
        return;
      }
      var week := CurrentWeekRange(now);
      employees := Payroll.AddEmployee(employees, nameInput, salaryInput, id, today, week.start);
      nameInput := [];
      salaryInput := None;
    }

    /** togglePaid: pay the matching record for the week of `now`, stamped with `today`. */
    method TogglePaid(id: int, today: DateText, now: int)
      modifies this`employees
      ensures employees == MarkPaid(old(employees), id, WeekOf(now), today)
      ensures TotalHistory(employees) == TotalHistory(old(employees)) + NewlyPaid(old(employees), id)
    {
      var week := CurrentWeekRange(now);
      MarkPaidAddsRows(employees, id, week, today);
      employees := MarkPaid(employees, id, week, today);
    }

    /** removeEmployee: drop the records with this id once the user confirms. */
    method RemoveEmployee(id: int, confirmed: bool)
      modifies this`employees
      ensures employees == if confirmed then Remove(old(employees), id) else old(employees)
    {
      if confirmed {
        employees := Remove(employees, id);
      }
    }

    /** The salary field of one record. */
    method EditSalary(id: int, salary: int)
      modifies this`employees
      ensures employees == SetSalary(old(employees), id, salary)
    {
      employees := SetSalary(employees, id, salary);
    }

    /** The bonus button: the prompt's answer, None when it is cancelled. */
    method AskBonus(id: int, answer: Option<int>)
      modifies this`employees
      ensures employees == if answer.Some? then SetBonus(old(employees), id, answer.value) else old(employees)
    {
      if answer.Some? {
        employees := SetBonus(employees, id, answer.value);
      }
    }

    /** The deduction button: the prompt's answer, None when it is cancelled. */
    method AskDeductions(id: int, answer: Option<int>)
      modifies this`employees
      ensures employees == if answer.Some? then SetDeductions(old(employees), id, answer.value) else old(employees)
    {
      if answer.Some? {
        employees := SetDeductions(employees, id, answer.value);
      }
    }

    /** The history button. */
    method ToggleHistoryView(id: int)
      modifies this`employees
      ensures employees == ToggleHistory(old(employees), id)
    {
      employees := ToggleHistory(employees, id);
    }

    /** exportExcel, up to the hand-over to the spreadsheet writer: the rows,
        one per ledger entry. */
    method ExportData() returns (rows: seq<Row>)
      ensures |rows| == TotalHistory(employees)
      ensures rows == ExportRows(employees)
    {
      rows := ExportRows(employees);
    }
  }
}
