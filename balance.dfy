/**
 * This month's income, expenses and their difference, as the "Overview" tab
 * (net savings) and the "Monthly Balance" tab (current balance) compute them.
 * Which rows belong to this month is decided before these figures are taken:
 * the two frames of this month's income and expense rows are inputs here.
 */
module Balance {
  import opened Money
  import opened Ledger

  datatype MonthFigures = MonthFigures(income: real, expenses: real, net: real)

  /** `inc`, `exp` and `net = inc - exp`, each sum guarded for the empty frame. */
  function MonthlyFigures(thisMonthInc: seq<LedgerRow>, thisMonthExp: seq<LedgerRow>): (f: MonthFigures)
    ensures f.income == Sum(Amounts(thisMonthInc)) && f.expenses == Sum(Amounts(thisMonthExp))
    ensures f.net == f.income - f.expenses
    ensures thisMonthInc == [] ==> f.income == 0.0
    ensures thisMonthExp == [] ==> f.expenses == 0.0
  {
    var inc := ColumnSum(Amounts(thisMonthInc));
    var exp := ColumnSum(Amounts(thisMonthExp));
    MonthFigures(inc, exp, inc - exp)
  }

  /** Another income row this month raises the balance by exactly its amount. */
  lemma IncomeRaisesNet(thisMonthInc: seq<LedgerRow>, thisMonthExp: seq<LedgerRow>, row: LedgerRow)
    ensures MonthlyFigures(thisMonthInc + [row], thisMonthExp).net
         == MonthlyFigures(thisMonthInc, thisMonthExp).net + row.amount
  {
    assert Amounts(thisMonthInc + [row]) == Amounts(thisMonthInc) + [row.amount];
    SumAppend(Amounts(thisMonthInc), [row.amount]);
  }

  /** Another expense row this month lowers the balance by exactly its amount. */
  lemma ExpenseLowersNet(thisMonthInc: seq<LedgerRow>, thisMonthExp: seq<LedgerRow>, row: LedgerRow)
    ensures MonthlyFigures(thisMonthInc, thisMonthExp + [row]).net
         == MonthlyFigures(thisMonthInc, thisMonthExp).net - row.amount
  {
    assert Amounts(thisMonthExp + [row]) == Amounts(thisMonthExp) + [row.amount];
    SumAppend(Amounts(thisMonthExp), [row.amount]);
  }

  /** Rows the form wrote carry amounts >= 0, so both totals are >= 0. */
  lemma TotalsNonNegative(thisMonthInc: seq<LedgerRow>, thisMonthExp: seq<LedgerRow>)
    requires forall i :: 0 <= i < |thisMonthInc| ==> ParseRow(thisMonthInc[i]).Some?
    requires forall i :: 0 <= i < |thisMonthExp| ==> ParseRow(thisMonthExp[i]).Some?
    ensures MonthlyFigures(thisMonthInc, thisMonthExp).income >= 0.0
    ensures MonthlyFigures(thisMonthInc, thisMonthExp).expenses >= 0.0
  {
    SumNonNegative(Amounts(thisMonthInc));
    SumNonNegative(Amounts(thisMonthExp));
  }

  /** One salary of 50000 and groceries of 1200 in January leave 48800. */
  lemma JanuaryExample()
    ensures MonthlyFigures(
              [LedgerRow("2025-01-05", 50000.0, "Salary Income", "", "Income")],
              [LedgerRow("2025-01-10", 1200.0, "groceries", "", "Expense")])
         == MonthFigures(50000.0, 1200.0, 48800.0)
  {
  }
}
