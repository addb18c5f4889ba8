/**
 * The ledger sheet ("Expenses" worksheet): the sidebar's "Add Entry" form
 * appends one row `[date, amount, category, description, type]`. The
 * module also holds `color_impulse`, the cell style app.py defines for
 * impulse categories.
 */
module Ledger {
  import opened Optional
  import opened Calendar
  import opened Money

  datatype Kind = Expense | Income

  /** The expense categories offered by the sidebar's "Category" select box. */
  const ExpenseCategories: seq<string> := [
    "impulse", "take-out", "groceries", "home needs", "Son needs",
    "son impulse", "charity", "loan emi", "LIC", "investment",
    "foolish commitments", "transport"
  ]

  /** The income sources offered by the sidebar's "Income Source" select box. */
  const IncomeSources: seq<string> := ["Salary Income", "Other Income"]

  /** The categories `color_impulse` highlights. */
  const ImpulseCategories: seq<string> := ["impulse", "son impulse", "foolish commitments"]

  const ImpulseStyle: string := "background-color: orange"

  /** The select box the form shows for the chosen type. */
  function CategoryOptions(kind: Kind): seq<string> {
    match kind
    case Expense => ExpenseCategories
    case Income => IncomeSources
  }

  /** The radio button's label, stored in the "Type" column. */
  function KindLabel(kind: Kind): string {
    match kind
    case Expense => "Expense"
    case Income => "Income"
  }

  function ParseKind(text: string): (r: Option<Kind>)
    ensures r.Some? ==> KindLabel(r.value) == text
  {
    if text == "Expense" then Some(Expense)
    else if text == "Income" then Some(Income)
    else None
  }

  /** One row of the sheet, as the cells hold it. */
  datatype LedgerRow = LedgerRow(date: string, amount: real, category: string, description: string, kind: string)

  /** What the form submits. */
  datatype Entry = Entry(date: Date, amount: real, category: string, description: string, kind: Kind)

  /** An entry the form can produce: a real date, an amount the number input allows, a category from the matching list. */
  predicate WellFormedEntry(e: Entry) {
    ValidDate(e.date) && e.amount >= 0.0 && e.category in CategoryOptions(e.kind)
  }

  /** The row `[str(date), amount, cat, desc, entry_type]`. */
  function EntryRow(e: Entry): (row: LedgerRow)
    ensures |row.date| == 10 && row.date[..7] == MonthKey(e.date)
    ensures row.amount == e.amount && row.category == e.category && row.description == e.description
    ensures ParseKind(row.kind) == Some(e.kind)
  {
    LedgerRow(IsoDate(e.date), e.amount, e.category, e.description, KindLabel(e.kind))
  }

  /** Reads a sheet row back as an entry; a row the form could not have written gives None. */
  function ParseRow(row: LedgerRow): (r: Option<Entry>)
    ensures r.Some? ==> WellFormedEntry(r.value)
  {
    match (ParseIsoDate(row.date), ParseKind(row.kind))
    case (Some(d), Some(k)) =>
      var e := Entry(d, row.amount, row.category, row.description, k);
      if WellFormedEntry(e) then Some(e) else None
    case _ => None
  }

  /** A submitted entry survives the trip through the sheet unchanged. */
  lemma EntryRowRoundTrip(e: Entry)
    requires WellFormedEntry(e)
    ensures ParseRow(EntryRow(e)) == Some(e)
  {
    IsoDateRoundTrip(e.date);
  }

  /** A row that reads back as an entry is exactly the row that entry writes. */
  lemma ParsedRowIsCanonical(row: LedgerRow)
    requires ParseRow(row).Some?
    ensures EntryRow(ParseRow(row).value) == row
  {
    ParsedIsoDateIsCanonical(row.date);
  }

  /** The "Amount" column of a frame of ledger rows. */
  function Amounts(rows: seq<LedgerRow>): seq<real> {
    Column(rows, (row: LedgerRow) => row.amount)
  }

  /** The "Expenses" worksheet: an append-only list of rows. */
  class LedgerSheet {
    var rows: seq<LedgerRow>

    /** Every row is one the form could have written. */
    ghost predicate RowsWellFormed()
      reads this
    {
      forall i :: 0 <= i < |rows| ==> ParseRow(rows[i]).Some?
    }

    constructor (loaded: seq<LedgerRow>)
      ensures rows == loaded
    {
      rows := loaded;
    }

    /**
     * The "Add" button: appends one row. The category is whatever the select
     * box for `kind` offers, and the number input only admits amounts >= 0.
     */
    method AddEntry(kind: Kind, date: Date, amount: real, category: string, description: string)
      requires ValidDate(date) && amount >= 0.0 && category in CategoryOptions(kind)
      modifies this
      ensures rows == old(rows) + [EntryRow(Entry(date, amount, category, description, kind))]
      ensures ParseRow(rows[|rows| - 1]) == Some(Entry(date, amount, category, description, kind))
      ensures old(RowsWellFormed()) ==> RowsWellFormed()
    {
      var e := Entry(date, amount, category, description, kind);
      EntryRowRoundTrip(e);
      rows := rows + [EntryRow(e)];
    }
  }

  /** `color_impulse`: the cell style for a category value. */
  function ColorImpulse(value: string): (style: string)
    ensures style == ImpulseStyle <==> value in ImpulseCategories
    ensures style == "" <==> value !in ImpulseCategories
  {
    if value in ImpulseCategories then ImpulseStyle else ""
  }

  /** Only expense rows are ever highlighted: every impulse category is an expense category and no income source is one. */
  lemma HighlightedRowsAreExpenses(row: LedgerRow)
    requires ParseRow(row).Some?
    requires ColorImpulse(row.category) != ""
    ensures ParseRow(row).value.kind == Expense
    ensures row.category in ExpenseCategories
  {
  }
}
