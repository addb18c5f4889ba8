/**
 * The scheduled-expense table and the projected balance of the "Monthly
 * Balance" tab. A scheduled row counts only in the month of its own stored
 * date: its "Recurring" and "Frequency" cells are recorded but never expanded
 * into later months.
 */
module Schedule {
  import opened Calendar
  import opened Money
  import opened Ledger
  import opened Balance

  datatype Frequency = Monthly | Quarterly | Yearly

  /** The "Frequency" select box's labels. */
  function FrequencyLabel(f: Frequency): string {
    match f
    case Monthly => "Monthly"
    case Quarterly => "Quarterly"
    case Yearly => "Yearly"
  }

  const OneTime: string := "One-time"

  /** One row of the scheduled table. */
  datatype ScheduledRow = ScheduledRow(
    date: Date, amount: real, category: string, description: string,
    recurring: string, frequency: string)

  /** "Recurring" and "Frequency" agree: "Yes" with a real frequency, or "No" with "One-time". */
  predicate ConsistentRecurrence(row: ScheduledRow) {
    || (row.recurring == "Yes" && row.frequency in {"Monthly", "Quarterly", "Yearly"})
    || (row.recurring == "No" && row.frequency == OneTime)
  }

  /** The row the "Schedule" button builds from the form. */
  function NewScheduledRow(d: Date, amt: real, cat: string, desc: string, rec: bool, freq: Frequency): (row: ScheduledRow)
    ensures row.date == d && row.amount == amt && row.category == cat && row.description == desc
    ensures ConsistentRecurrence(row)
    ensures row.recurring == "Yes" <==> rec
    ensures row.frequency == OneTime <==> !rec
    ensures rec ==> row.frequency == FrequencyLabel(freq)
  {
    ScheduledRow(d, amt, cat, desc, if rec then "Yes" else "No", if rec then FrequencyLabel(freq) else OneTime)
  }

  /** The scheduled table, rebound to a longer frame when a row is added. */
  class ScheduleStore {
    var rows: seq<ScheduledRow>

    /** Every row's recurrence cells agree with each other. */
    ghost predicate RecurrenceConsistent()
      reads this
    {
      forall i :: 0 <= i < |rows| ==> ConsistentRecurrence(rows[i])
    }

    constructor (loaded: seq<ScheduledRow>)
      ensures rows == loaded
    {
      rows := loaded;
    }

    /**
     * The "Schedule" button: a row is added only for a positive amount, at the
     * end of the table. The number input admits amounts >= 0 only.
     */
    method Schedule(d: Date, amt: real, cat: string, desc: string, rec: bool, freq: Frequency) returns (added: bool)
      requires amt >= 0.0
      modifies this
      ensures added <==> amt > 0.0
      ensures added ==> rows == old(rows) + [NewScheduledRow(d, amt, cat, desc, rec, freq)]
      ensures !added ==> rows == old(rows)
      ensures old(RecurrenceConsistent()) ==> RecurrenceConsistent()
    {
      added := amt > 0.0;
      if added {
        rows := rows + [NewScheduledRow(d, amt, cat, desc, rec, freq)];
      }
    }
  }

  // ---------------------------------------------------------------------------
  // Projection

  predicate InMonth(row: ScheduledRow, monthKey: string) {
    MonthKey(row.date) == monthKey
  }

  /** `scheduled[scheduled["Date"].dt.strftime("%Y-%m") == current_month_str]`. */
  function Upcoming(scheduled: seq<ScheduledRow>, monthKey: string): (upcoming: seq<ScheduledRow>)
    ensures |upcoming| <= |scheduled|
    ensures forall row :: row in upcoming <==> row in scheduled && InMonth(row, monthKey)
  {
    if scheduled == [] then []
    else
      (if InMonth(scheduled[0], monthKey) then [scheduled[0]] else []) + Upcoming(scheduled[1..], monthKey)
  }

  /** The "Amount" column of a frame of scheduled rows. */
  function ScheduledAmounts(rows: seq<ScheduledRow>): seq<real> {
    Column(rows, (row: ScheduledRow) => row.amount)
  }

  /** Each row of the current month is kept as often as the table holds it, and no other row is kept. */
  lemma {:induction false} UpcomingCounts(scheduled: seq<ScheduledRow>, monthKey: string, row: ScheduledRow)
    ensures multiset(Upcoming(scheduled, monthKey))[row] == if InMonth(row, monthKey) then multiset(scheduled)[row] else 0
  {
    if scheduled != [] {
      UpcomingCounts(scheduled[1..], monthKey, row);
      assert scheduled == [scheduled[0]] + scheduled[1..];
    }
  }

  /** `potential`: the amount of this month's scheduled rows, with app.py's guards for empty frames. */
  function Potential(scheduled: seq<ScheduledRow>, monthKey: string): (potential: real)
    ensures scheduled == [] ==> potential == 0.0
    ensures (forall i :: 0 <= i < |scheduled| ==> !InMonth(scheduled[i], monthKey)) ==> potential == 0.0
  {
    var upcoming := if |scheduled| != 0 then Upcoming(scheduled, monthKey) else [];
    assert upcoming != [] ==> upcoming[0] in scheduled && InMonth(upcoming[0], monthKey);
    ColumnSum(ScheduledAmounts(upcoming))
  }

  /** The outflow of a month, row by row: a row adds its amount when it is dated in that month, nothing otherwise. */
  function MonthOutflow(scheduled: seq<ScheduledRow>, monthKey: string): real {
    if scheduled == [] then 0.0
    else (if InMonth(scheduled[0], monthKey) then scheduled[0].amount else 0.0) + MonthOutflow(scheduled[1..], monthKey)
  }

  lemma {:induction false} MonthOutflowAppend(a: seq<ScheduledRow>, b: seq<ScheduledRow>, monthKey: string)
    ensures MonthOutflow(a + b, monthKey) == MonthOutflow(a, monthKey) + MonthOutflow(b, monthKey)
  {
    if a == [] {
      assert a + b == b;
    } else {
      assert (a + b)[1..] == a[1..] + b;
      MonthOutflowAppend(a[1..], b, monthKey);
    }
  }

  /** `potential` is exactly the sum of the amounts of the rows dated in the current month. */
  lemma PotentialIsMonthOutflow(scheduled: seq<ScheduledRow>, monthKey: string)
    ensures Potential(scheduled, monthKey) == MonthOutflow(scheduled, monthKey)
  {
    if scheduled != [] {
      UpcomingSum(scheduled, monthKey);
    }
  }

  lemma {:induction false} UpcomingSum(scheduled: seq<ScheduledRow>, monthKey: string)
    ensures Sum(ScheduledAmounts(Upcoming(scheduled, monthKey))) == MonthOutflow(scheduled, monthKey)
  {
    if scheduled != [] {
      var head := if InMonth(scheduled[0], monthKey) then [scheduled[0]] else [];
      var tail := Upcoming(scheduled[1..], monthKey);
      UpcomingSum(scheduled[1..], monthKey);
      assert Upcoming(scheduled, monthKey) == head + tail;
      ColumnAppend(head, tail, (row: ScheduledRow) => row.amount);
      SumAppend(ScheduledAmounts(head), ScheduledAmounts(tail));
    }
  }

  datatype BalanceView = BalanceView(income: real, expenses: real, balance: real, potential: real, projected: real)

  /** The "Monthly Balance" tab: current balance, then `projected = balance - potential`. */
  function BalanceTab(thisMonthInc: seq<LedgerRow>, thisMonthExp: seq<LedgerRow>,
                      scheduled: seq<ScheduledRow>, currentMonth: string): (v: BalanceView)
    ensures v.income == Sum(Amounts(thisMonthInc)) && v.expenses == Sum(Amounts(thisMonthExp))
    ensures v.balance == v.income - v.expenses
    ensures v.potential == MonthOutflow(scheduled, currentMonth)
    ensures v.projected == v.balance - v.potential
  {
    var figures := MonthlyFigures(thisMonthInc, thisMonthExp);
    var potential := Potential(scheduled, currentMonth);
    PotentialIsMonthOutflow(scheduled, currentMonth);
    BalanceView(figures.income, figures.expenses, figures.net, potential, figures.net - potential)
  }

  /** With nothing scheduled in the current month the projection is the current balance. */
  lemma {:induction false} NothingScheduledThisMonth(thisMonthInc: seq<LedgerRow>, thisMonthExp: seq<LedgerRow>,
                                                     scheduled: seq<ScheduledRow>, currentMonth: string)
    requires forall i :: 0 <= i < |scheduled| ==> !InMonth(scheduled[i], currentMonth)
    ensures BalanceTab(thisMonthInc, thisMonthExp, scheduled, currentMonth).potential == 0.0
    ensures BalanceTab(thisMonthInc, thisMonthExp, scheduled, currentMonth).projected
         == BalanceTab(thisMonthInc, thisMonthExp, scheduled, currentMonth).balance
  {
    NoOutflow(scheduled, currentMonth);
  }

  lemma {:induction false} NoOutflow(scheduled: seq<ScheduledRow>, monthKey: string)
    requires forall i :: 0 <= i < |scheduled| ==> !InMonth(scheduled[i], monthKey)
    ensures MonthOutflow(scheduled, monthKey) == 0.0
  {
    if scheduled != [] {
      NoOutflow(scheduled[1..], monthKey);
    }
  }

  /**
   * A row dated in another month than today's adds nothing to today's
   * projection, wherever it stands and whatever its recurrence cells say.
   */
  lemma OtherMonthRowIgnored(before: seq<ScheduledRow>, row: ScheduledRow, after: seq<ScheduledRow>, today: Date)
    requires ValidDate(row.date) && ValidDate(today)
    requires row.date.year != today.year || row.date.month != today.month
    ensures Potential(before + [row] + after, MonthKey(today)) == Potential(before + after, MonthKey(today))
  {
    var key := MonthKey(today);
    MonthKeySameMonth(row.date, today);
    PotentialIsMonthOutflow(before + [row] + after, key);
    PotentialIsMonthOutflow(before + after, key);
    MonthOutflowAppend(before + [row], after, key);
    MonthOutflowAppend(before, [row], key);
    MonthOutflowAppend(before, after, key);
  }

  /** Scheduling a row moves this month's projection down by its amount if it is dated this month, and not at all otherwise. */
  lemma ScheduleShiftsProjection(scheduled: seq<ScheduledRow>, d: Date, amt: real, cat: string, desc: string,
                                 rec: bool, freq: Frequency, currentMonth: string)
    ensures Potential(scheduled + [NewScheduledRow(d, amt, cat, desc, rec, freq)], currentMonth)
         == Potential(scheduled, currentMonth) + (if MonthKey(d) == currentMonth then amt else 0.0)
  {
    var row := NewScheduledRow(d, amt, cat, desc, rec, freq);
    PotentialIsMonthOutflow(scheduled + [row], currentMonth);
    PotentialIsMonthOutflow(scheduled, currentMonth);
    MonthOutflowAppend(scheduled, [row], currentMonth);
  }

  /** Rows with amounts >= 0 can only lower the projection below the current balance. */
  lemma {:induction false} ProjectedAtMostBalance(thisMonthInc: seq<LedgerRow>, thisMonthExp: seq<LedgerRow>,
                                                  scheduled: seq<ScheduledRow>, currentMonth: string)
    requires forall i :: 0 <= i < |scheduled| ==> scheduled[i].amount >= 0.0
    ensures BalanceTab(thisMonthInc, thisMonthExp, scheduled, currentMonth).projected
         <= BalanceTab(thisMonthInc, thisMonthExp, scheduled, currentMonth).balance
  {
    OutflowNonNegative(scheduled, currentMonth);
  }

  lemma {:induction false} OutflowNonNegative(scheduled: seq<ScheduledRow>, monthKey: string)
    requires forall i :: 0 <= i < |scheduled| ==> scheduled[i].amount >= 0.0
    ensures MonthOutflow(scheduled, monthKey) >= 0.0
  {
    if scheduled != [] {
      OutflowNonNegative(scheduled[1..], monthKey);
    }
  }

  /**
   * A monthly schedule of 2000 anchored on 2025-01-15 counts in January 2025
   * only; in March 2025 it contributes nothing, because nothing expands it.
   */
  lemma MonthlyScheduleCountsOnlyInAnchorMonth()
    ensures Potential([NewScheduledRow(Date(2025, 1, 15), 2000.0, "loan emi", "", true, Monthly)], "2025-01") == 2000.0
    ensures Potential([NewScheduledRow(Date(2025, 1, 15), 2000.0, "loan emi", "", true, Monthly)], "2025-03") == 0.0
  {
    var row := NewScheduledRow(Date(2025, 1, 15), 2000.0, "loan emi", "", true, Monthly);
    assert MonthKey(row.date) == "2025-01";
    PotentialIsMonthOutflow([row], "2025-01");
    PotentialIsMonthOutflow([row], "2025-03");
  }
}
