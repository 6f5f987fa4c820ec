/** The employee records of the payroll tracker and the list transformations
    the user's actions apply to them. Every action takes the previous ordered
    list of records and returns the next one; nothing here changes state. */
module Payroll {
  import opened Week

  datatype Option<T> = None | Some(value: T) {
    /** `x || 0` on a field that may be missing. */
    function GetOr(default: T): T
    {
      if Some? then value else default
    }
  }

  /** One line of an employee's payout ledger: the week label and the amount paid. */
  datatype Entry = Entry(week: WeekRange, amount: int)

  /** An employee record. Money is in whole units. `bonus` and `deductions`
      are None when the stored record lacks them; `lastPaidDate` is None
      until the first payout. */
  datatype Employee = Employee(
    id: int,
    name: string,
    weeklySalary: int,
    paid: bool,
    bonus: Option<int>,
    deductions: Option<int>,
    lastPaidDate: Option<DateText>,
    added: DateText,
    lastWeek: DateText,
    history: seq<Entry>,
    showHistory: bool)

  /** The amount of this week's payout: salary plus bonus minus deductions,
      a missing bonus or deduction counting as 0, with no floor at zero. */
  function Payout(e: Employee): (amount: int)
    ensures e.deductions.GetOr(0) > e.weeklySalary + e.bonus.GetOr(0) ==> amount < 0
    ensures e.bonus.GetOr(0) == 0 && e.deductions.GetOr(0) == 0 ==> amount == e.weeklySalary
  {
    e.weeklySalary + e.bonus.GetOr(0) - e.deductions.GetOr(0)
  }

  // ---------------------------------------------------------------------------
  // Applying one record update to the records with a given id

  /** `prev.map(el => el.id === id ? f(el) : el)`. */
  function UpdateWhere(es: seq<Employee>, id: int, f: Employee -> Employee): (r: seq<Employee>)
    ensures |r| == |es|
    ensures forall i :: 0 <= i < |es| && es[i].id != id ==> r[i] == es[i]
    ensures forall i :: 0 <= i < |es| && es[i].id == id ==> r[i] == f(es[i])
  {
    if es == [] then []
    else [if es[0].id == id then f(es[0]) else es[0]] + UpdateWhere(es[1..], id, f)
  }

  // ---------------------------------------------------------------------------
  // Weekly rollover

  /** The rollover of one record against the current week-start. */
  function Roll(e: Employee, weekStart: DateText): (r: Employee)
    ensures r.lastWeek == weekStart
    ensures e.lastWeek == weekStart ==> r == e
    ensures e.lastWeek != weekStart ==> !r.paid && r.bonus == Some(0) && r.deductions == Some(0)
    ensures r.(paid := e.paid, bonus := e.bonus, deductions := e.deductions, lastWeek := e.lastWeek) == e
  {
    if e.lastWeek != weekStart then
      e.(paid := false, bonus := Some(0), deductions := Some(0), lastWeek := weekStart)
    else
      e
  }

  /** The rollover pass over the whole list. */
  function Rollover(es: seq<Employee>, weekStart: DateText): (r: seq<Employee>)
    ensures |r| == |es|
    ensures forall i :: 0 <= i < |es| ==> r[i] == Roll(es[i], weekStart)
  {
    if es == [] then [] else [Roll(es[0], weekStart)] + Rollover(es[1..], weekStart)
  }

  /** Rolling over twice against the same week-start resets nothing the first pass did not. */
  lemma RolloverIdempotent(es: seq<Employee>, weekStart: DateText)
    ensures Rollover(Rollover(es, weekStart), weekStart) == Rollover(es, weekStart)
  {
    var once := Rollover(es, weekStart);
    forall i | 0 <= i < |es|
      ensures Rollover(once, weekStart)[i] == once[i]
    {
      assert once[i].lastWeek == weekStart;
    }
  }

  /** A rollover against any day of the week it last rolled over against
      changes nothing: records only reset when the Monday changes. */
  lemma RolloverSameWeek(es: seq<Employee>, d1: int, d2: int)
    requires MondayOf(d1) <= d2 <= MondayOf(d1) + 6
    ensures Rollover(Rollover(es, WeekOf(d1).start), WeekOf(d2).start) == Rollover(es, WeekOf(d1).start)
  {
    SameWeek(d1, d2);
    RolloverIdempotent(es, WeekOf(d1).start);
  }

  // ---------------------------------------------------------------------------
  // Mark paid

  /** togglePaid on one matching record: final for the week once set. */
  function Pay(e: Employee, week: WeekRange, today: DateText): (r: Employee)
    ensures e.paid ==> r == e
    ensures !e.paid ==> r.paid && r.lastPaidDate == Some(today)
    ensures !e.paid ==> r.history == e.history + [Entry(week, e.weeklySalary + e.bonus.GetOr(0) - e.deductions.GetOr(0))]
    ensures r.(paid := e.paid, lastPaidDate := e.lastPaidDate, history := e.history) == e
  {
    if e.paid then e
    else e.(paid := true, lastPaidDate := Some(today), history := e.history + [Entry(week, Payout(e))])
  }

  /** togglePaid over the list: pay every record whose id matches. */
  function MarkPaid(es: seq<Employee>, id: int, week: WeekRange, today: DateText): (r: seq<Employee>)
    ensures |r| == |es|
    ensures forall i :: 0 <= i < |es| && (es[i].id != id || es[i].paid) ==> r[i] == es[i]
    ensures forall i :: 0 <= i < |es| && es[i].id == id ==> r[i].paid
    ensures forall i :: 0 <= i < |es| && es[i].id == id && !es[i].paid ==>
      r[i] == Pay(es[i], week, today) && |r[i].history| == |es[i].history| + 1
  {
    UpdateWhere(es, id, e => Pay(e, week, today))
  }

  /** A second mark-paid changes nothing, even with other labels (a click on a
      later day renders another `today`): the matching records are paid already. */
  lemma MarkPaidIdempotent(es: seq<Employee>, id: int, week: WeekRange, today: DateText,
                           week2: WeekRange, today2: DateText)
    ensures MarkPaid(MarkPaid(es, id, week, today), id, week2, today2) == MarkPaid(es, id, week, today)
  {
  }

  /** Paying appends to the ledger and never rewrites it: each record's
      earlier entries stay in place, and the ledger grows by one entry for
      each matching record that was not yet paid, by none for the others. */
  lemma MarkPaidAppendsOnly(es: seq<Employee>, id: int, week: WeekRange, today: DateText, i: int)
    requires 0 <= i < |es|
    ensures |MarkPaid(es, id, week, today)| == |es|
    ensures es[i].history <= MarkPaid(es, id, week, today)[i].history
    ensures |MarkPaid(es, id, week, today)[i].history| ==
      |es[i].history| + (if es[i].id == id && !es[i].paid then 1 else 0)
  {
  }

  // ---------------------------------------------------------------------------
  // Add

  /** The record addEmployee creates. */
  function NewEmployee(id: int, name: string, salary: int, today: DateText, weekStart: DateText): (e: Employee)
    ensures e.id == id && e.name == name && e.weeklySalary == salary
    ensures !e.paid && e.bonus == Some(0) && e.deductions == Some(0) && e.lastPaidDate == None
    ensures e.history == [] && !e.showHistory
    ensures e.added == today && e.lastWeek == weekStart
  {
    Employee(id, name, salary, false, Some(0), Some(0), None, today, weekStart, [], false)
  }

  /** Whether addEmployee goes ahead: the name field and the salary field
      (None when empty) must both be filled in. */
  predicate AddAccepted(name: string, salaryInput: Option<int>)
  {
    name != [] && salaryInput.Some?
  }

  /** addEmployee: append one new record, unless a form field is empty. */
  function AddEmployee(es: seq<Employee>, name: string, salaryInput: Option<int>, id: int,
                       today: DateText, weekStart: DateText): (r: seq<Employee>)
    ensures !AddAccepted(name, salaryInput) ==> r == es
    ensures AddAccepted(name, salaryInput) ==>
      |r| == |es| + 1 && r[..|es|] == es &&
      r[|es|] == NewEmployee(id, name, salaryInput.value, today, weekStart)
  {
    if !AddAccepted(name, salaryInput) then es
    else es + [NewEmployee(id, name, salaryInput.value, today, weekStart)]
  }

  // ---------------------------------------------------------------------------
  // Remove

  /** `a` is `b` with some elements left out, the rest in their original order. */
  predicate Subsequence(a: seq<Employee>, b: seq<Employee>)
    decreases |b|
  {
    if a == [] then true
    else if b == [] then false
    else if a[0] == b[0] then Subsequence(a[1..], b[1..])
    else Subsequence(a, b[1..])
  }

  /** removeEmployee once confirmed: `prev.filter(emp => emp.id !== id)`. */
  function Remove(es: seq<Employee>, id: int): (r: seq<Employee>)
    ensures forall x :: multiset(r)[x] == if x.id == id then 0 else multiset(es)[x]
    ensures Subsequence(r, es)
    ensures (forall i :: 0 <= i < |es| ==> es[i].id != id) ==> r == es
  {
    if es == [] then []
    else
      assert es == [es[0]] + es[1..];
      var rest := Remove(es[1..], id);
      if es[0].id != id then [es[0]] + rest
      else
        assert rest != [] ==> rest[0] != es[0] by {
          if rest != [] { assert rest[0] in multiset(rest); }
        }
        rest
  }

  // ---------------------------------------------------------------------------
  // The inline field setters

  /** The salary field's onChange: set the weekly salary of the matching records. */
  function SetSalary(es: seq<Employee>, id: int, salary: int): (r: seq<Employee>)
    ensures |r| == |es|
    ensures forall i :: 0 <= i < |es| && es[i].id != id ==> r[i] == es[i]
    ensures forall i :: 0 <= i < |es| && es[i].id == id ==>
      r[i].weeklySalary == salary && r[i].(weeklySalary := es[i].weeklySalary) == es[i]
  {
    UpdateWhere(es, id, (e: Employee) => e.(weeklySalary := salary))
  }

  /** The bonus button, once the prompt is answered: set the bonus of the matching records. */
  function SetBonus(es: seq<Employee>, id: int, bonus: int): (r: seq<Employee>)
    ensures |r| == |es|
    ensures forall i :: 0 <= i < |es| && es[i].id != id ==> r[i] == es[i]
    ensures forall i :: 0 <= i < |es| && es[i].id == id ==>
      r[i].bonus == Some(bonus) && r[i].(bonus := es[i].bonus) == es[i]
  {
    UpdateWhere(es, id, (e: Employee) => e.(bonus := Some(bonus)))
  }

  /** The deduction button, once the prompt is answered: set the deductions of the matching records. */
  function SetDeductions(es: seq<Employee>, id: int, deductions: int): (r: seq<Employee>)
    ensures |r| == |es|
    ensures forall i :: 0 <= i < |es| && es[i].id != id ==> r[i] == es[i]
    ensures forall i :: 0 <= i < |es| && es[i].id == id ==>
      r[i].deductions == Some(deductions) && r[i].(deductions := es[i].deductions) == es[i]
  {
    UpdateWhere(es, id, (e: Employee) => e.(deductions := Some(deductions)))
  }

  /** The history button: flip the display toggle of the matching records. */
  function ToggleHistory(es: seq<Employee>, id: int): (r: seq<Employee>)
    ensures |r| == |es|
    ensures forall i :: 0 <= i < |es| && es[i].id != id ==> r[i] == es[i]
    ensures forall i :: 0 <= i < |es| && es[i].id == id ==>
      r[i].showHistory != es[i].showHistory && r[i].(showHistory := es[i].showHistory) == es[i]
  {
    UpdateWhere(es, id, (e: Employee) => e.(showHistory := !e.showHistory))
  }

  /** Toggling the history view twice restores the list. */
  lemma ToggleHistoryTwice(es: seq<Employee>, id: int)
    ensures ToggleHistory(ToggleHistory(es, id), id) == es
  {
  }

  // ---------------------------------------------------------------------------
  // An invariant every action keeps

  /** A paid record has a ledger entry and a payment date. */
  predicate PaidRecorded(e: Employee)
  {
    e.paid ==> |e.history| > 0 && e.lastPaidDate.Some?
  }

  predicate AllPaidRecorded(es: seq<Employee>)
  {
    forall i :: 0 <= i < |es| ==> PaidRecorded(es[i])
  }

  lemma AddKeepsPaidRecorded(es: seq<Employee>, name: string, salaryInput: Option<int>, id: int,
                             today: DateText, weekStart: DateText)
    requires AllPaidRecorded(es)
    ensures AllPaidRecorded(AddEmployee(es, name, salaryInput, id, today, weekStart))
  {
  }

  lemma RolloverKeepsPaidRecorded(es: seq<Employee>, weekStart: DateText)
    requires AllPaidRecorded(es)
    ensures AllPaidRecorded(Rollover(es, weekStart))
  {
  }

  /** Mark-paid establishes the invariant for every record it pays, whatever held before. */
  lemma MarkPaidKeepsPaidRecorded(es: seq<Employee>, id: int, week: WeekRange, today: DateText)
    requires AllPaidRecorded(es)
    ensures AllPaidRecorded(MarkPaid(es, id, week, today))
  {
  }

  lemma RemoveKeepsPaidRecorded(es: seq<Employee>, id: int)
    requires AllPaidRecorded(es)
    ensures AllPaidRecorded(Remove(es, id))
  {
  }

  lemma SettersKeepPaidRecorded(es: seq<Employee>, id: int, v: int)
    requires AllPaidRecorded(es)
    ensures AllPaidRecorded(SetSalary(es, id, v))
    ensures AllPaidRecorded(SetBonus(es, id, v))
    ensures AllPaidRecorded(SetDeductions(es, id, v))
    ensures AllPaidRecorded(ToggleHistory(es, id))
  {
  }
}
