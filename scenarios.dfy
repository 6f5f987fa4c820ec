/** Whole-workflow properties of the payroll tracker: sequences of user
    actions and what they leave in the ledger. */
module Scenarios {
  import opened Week
  import opened Payroll
  import opened Export

  /** 1000 salary, 200 bonus and 300 deductions pay out 900. */
  lemma PayoutOfExample(e: Employee)
    requires e.weeklySalary == 1000 && e.bonus == Some(200) && e.deductions == Some(300)
    ensures Payout(e) == 900
  {
  }

  /** A new employee paid, then given a bonus and paid again in the same week,
      keeps the single ledger entry of the first payout: the bonus is not paid. */
  lemma BonusAfterPaymentIsNotPaid(id: int, name: string, salary: int, bonus: int,
                                                      today: DateText, now: int)
    requires name != []
    ensures
      var week := WeekOf(now);
      var added := Payroll.AddEmployee([], name, Some(salary), id, today, week.start);
      var paid := MarkPaid(added, id, week, today);
      var again := MarkPaid(SetBonus(paid, id, bonus), id, week, today);
      |again| == 1 && again[0].paid && again[0].bonus == Some(bonus) &&
      again[0].history == [Entry(week, salary)]
  {
    var week := WeekOf(now);
    var added := Payroll.AddEmployee([], name, Some(salary), id, today, week.start);
    assert added[0].bonus == Some(0) && added[0].deductions == Some(0);
    var paid := MarkPaid(added, id, week, today);
    assert paid[0].history == [] + [Entry(week, salary)];
  }

  /** After a rollover into a later week, the employee paid last week can be
      paid again: the ledger gains a second entry, labelled with the new week,
      for salary plus the new week's bonus. */
  lemma NextWeekPaysAgain(es: seq<Employee>, id: int, d1: int, d2: int,
                                             today1: DateText, today2: DateText, bonus: int)
    requires MondayOf(d1) + 6 < d2
    requires |es| == 1 && es[0].id == id && !es[0].paid && es[0].history == [] && es[0].lastWeek == WeekOf(d1).start
    ensures
      var first := MarkPaid(es, id, WeekOf(d1), today1);
      var later := Rollover(first, WeekOf(d2).start);
      var second := MarkPaid(SetBonus(later, id, bonus), id, WeekOf(d2), today2);
      |second| == 1 && second[0].paid && second[0].lastPaidDate == Some(today2) &&
      |second[0].history| == 2 && second[0].history[0] == first[0].history[0] &&
      second[0].history[1] == Entry(WeekOf(d2), es[0].weeklySalary + bonus)
  {
    SameWeek(d1, d2);
    assert WeekOf(d1).start != WeekOf(d2).start;
    var first := MarkPaid(es, id, WeekOf(d1), today1);
    var later := Rollover(first, WeekOf(d2).start);
    assert !later[0].paid && later[0].deductions == Some(0);
  }

  /** Paying an employee twice in a week leaves one ledger entry, so the
      export holds one row for that week. */
  lemma PayTwiceOneRow(es: seq<Employee>, id: int, week: WeekRange, today: DateText)
    requires |es| == 1 && es[0].id == id && !es[0].paid && es[0].history == []
    ensures
      var twice := MarkPaid(MarkPaid(es, id, week, today), id, week, today);
      ExportRows(twice) == [Row(es[0].name, week, Payout(es[0]))]
  {
    MarkPaidIdempotent(es, id, week, today, week, today);
    var once := MarkPaid(es, id, week, today);
    assert once[0].history == [Entry(week, Payout(es[0]))];
    assert once[1..] == [];
  }
}
