/** The rows the spreadsheet export hands to the spreadsheet writer: every
    ledger entry of every employee, employee by employee and, within an
    employee, in ledger order. The writer itself is not part of this model. */
module Export {
  import opened Week
  import opened Payroll

  /** One spreadsheet row: the columns "Сотрудник", "Неделя" and "Сумма". */
  datatype Row = Row(employee: string, week: WeekRange, amount: int)

  /** `emp.history.map(h => row)`: one row per ledger entry of one employee. */
  function RowsOf(name: string, history: seq<Entry>): (rows: seq<Row>)
    ensures |rows| == |history|
    ensures forall j :: 0 <= j < |history| ==>
      rows[j].employee == name && rows[j].week == history[j].week && rows[j].amount == history[j].amount
  {
    if history == [] then []
    else [Row(name, history[0].week, history[0].amount)] + RowsOf(name, history[1..])
  }

  /** The number of ledger entries across a list of records. */
  function TotalHistory(es: seq<Employee>): nat
  {
    if es == [] then 0 else |es[0].history| + TotalHistory(es[1..])
  }

  /** `employees.flatMap(emp => RowsOf(emp))`. */
  function ExportRows(es: seq<Employee>): (rows: seq<Row>)
    ensures |rows| == TotalHistory(es)
  {
    if es == [] then [] else RowsOf(es[0].name, es[0].history) + ExportRows(es[1..])
  }

  /** Exporting two lists one after the other gives the rows of each, in that order. */
  lemma {:induction false} ExportRowsAppend(a: seq<Employee>, b: seq<Employee>)
    ensures ExportRows(a + b) == ExportRows(a) + ExportRows(b)
  {
    if a == [] {
      assert a + b == b;
    } else {
      assert (a + b)[1..] == a[1..] + b;
      ExportRowsAppend(a[1..], b);
    }
  }

  /** Entry j of employee k is the row at position TotalHistory(es[..k]) + j:
      the rows of all earlier employees come first, then this employee's in
      ledger order, each carrying the employee's name and that entry's week and amount. */
  lemma {:induction false} ExportRowAt(es: seq<Employee>, k: int, j: int)
    requires 0 <= k < |es| && 0 <= j < |es[k].history|
    ensures TotalHistory(es[..k]) + j < |ExportRows(es)|
    ensures ExportRows(es)[TotalHistory(es[..k]) + j] ==
      Row(es[k].name, es[k].history[j].week, es[k].history[j].amount)
  {
    if k == 0 {
      assert es[..0] == [];
    } else {
      assert es[1..][..k - 1] == es[1..k];
      assert es[..k] == [es[0]] + es[1..k];
      assert ([es[0]] + es[1..k])[1..] == es[1..k];
      ExportRowAt(es[1..], k - 1, j);
    }
  }

  /** Conversely every row comes from one ledger entry of one employee,
      found at the position ExportRowAt gives. */
  lemma {:induction false} ExportRowFrom(es: seq<Employee>, n: int)
    requires 0 <= n < |ExportRows(es)|
    ensures exists k, j :: (0 <= k < |es| && 0 <= j < |es[k].history| &&
                            n == TotalHistory(es[..k]) + j &&
                            ExportRows(es)[n] == Row(es[k].name, es[k].history[j].week, es[k].history[j].amount))
  {
    if n < |es[0].history| {
      assert es[..0] == [];
      ExportRowAt(es, 0, n);
    } else {
      ExportRowFrom(es[1..], n - |es[0].history|);
      var k, j :| 0 <= k < |es[1..]| && 0 <= j < |es[1..][k].history| &&
        n - |es[0].history| == TotalHistory(es[1..][..k]) + j &&
        ExportRows(es[1..])[n - |es[0].history|] == Row(es[1..][k].name, es[1..][k].history[j].week, es[1..][k].history[j].amount);
      assert es[..k + 1] == [es[0]] + es[1..][..k];
      assert ([es[0]] + es[1..][..k])[1..] == es[1..][..k];
      assert n == TotalHistory(es[..k + 1]) + j;
    }
  }

  /** A mark-paid adds exactly one row to the export for each matching record
      that was not yet paid. */
  lemma {:induction false} MarkPaidAddsRows(es: seq<Employee>, id: int, week: WeekRange, today: DateText)
    ensures TotalHistory(MarkPaid(es, id, week, today)) == TotalHistory(es) + NewlyPaid(es, id)
  {
    if es != [] {
      var r := MarkPaid(es, id, week, today);
      assert r[1..] == MarkPaid(es[1..], id, week, today);
      MarkPaidAddsRows(es[1..], id, week, today);
    }
  }

  /** The number of records with this id that are not yet paid. */
  function NewlyPaid(es: seq<Employee>, id: int): nat
  {
    if es == [] then 0 else (if es[0].id == id && !es[0].paid then 1 else 0) + NewlyPaid(es[1..], id)
  }
}
