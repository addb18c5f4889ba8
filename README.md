# Family Finance Tracker — verified model of the ledger and balance logic

The tracker is a Streamlit app. Each user logs in against a master users sheet
and gets their own "Expenses" worksheet. Income and expense entries are appended
to that worksheet from a sidebar form. The app shows this month's income,
expenses and net savings, plus a projected balance that subtracts the expenses
scheduled for the current month. Scheduled expenses live in a separate table:
a form adds rows to it, and the Recurring and Frequency cells of each row are
recorded.

This project models that logic in Dafny and leaves the widgets, the spreadsheet
calls and the file I/O out:

- `Calendar` (calendar.dfy): dates and their two text forms. One is `str(date)`
  ("YYYY-MM-DD"), which is written into the ledger. The other is
  `strftime("%Y-%m")`, the month key. The module proves that parsing is the
  inverse of formatting, and that two dates share a month key exactly when they
  fall in the same calendar month.
- `Money` (money.dfy): sums of an amount column. `ColumnSum` is the
  `x.sum() if not x.empty else 0` guard.
- `Ledger` (ledger.dfy): the sheet row `[date, amount, category, description,
  type]`, the category lists, the `LedgerSheet` class with its append-only
  `AddEntry`, and `color_impulse`.
- `Balance` (balance.dfy): this month's income, expenses and net savings.
- `Schedule` (schedule.dfy): the `ScheduleStore` class and its guarded append,
  the filter that keeps the current month's scheduled rows, `potential`, and
  the projected balance.
- `Auth` (auth.dfy): the login filter and the `Session` class that holds the
  logged-in user.
- `Optional` (optional.dfy): an `Option` datatype.

Several names are used by app.py but never defined there:

- `this_month_inc` and `this_month_exp`, the frames of this month's rows
- `current_month_str`, the month key
- `scheduled`, the scheduled table
- `EXPENSE_CATEGORIES`

The model takes all of them as inputs. It does not guess how they are built.

Behaviour of app.py worth noting:

- Recurring schedules are never expanded into later months. A row, whatever
  its Recurring and Frequency cells say, counts only in the month of its own
  stored date (app.py:123). `Schedule.MonthlyScheduleCountsOnlyInAnchorMonth` shows
  this for a monthly row anchored on 2025-01-15: it contributes 2000 to January
  2025 and nothing to March 2025.
- A ledger entry with amount 0 is accepted. The number input only enforces
  `min_value=0.0`, and the "Add" button checks nothing more (app.py:73, 86-87).
  Only the scheduled-expense form requires `amt > 0` (app.py:138).
- A non-recurring scheduled row stores "No" in its Recurring cell and
  "One-time" in its Frequency cell. A recurring row stores "Yes" and the label
  chosen in the select box, which offers only Monthly, Quarterly and Yearly.
- app.py compares no budgets and builds no yearly aggregation. The Budgets
  sheet is loaded but never used. Ledger entries are never filtered by period
  in app.py; the only period filter is the month filter on the scheduled
  table (app.py:123).
- `color_impulse` is defined (app.py:98-99) but never called.
- Pressing "Login" while the users sheet has no records fails: the empty frame
  has no "username" column, so the lookup at app.py:37 raises instead of
  reporting a wrong password. The model gives this its own outcome,
  `NoUserColumns`.

## Model

| member | source | states |
|---|---|---|
| `Calendar.MonthKey` | app.py:123 | `strftime("%Y-%m")`: a seven-character key whose year and month are separated by "-" |
| `Calendar.IsoDate` | app.py:87 | `str(date)`: a ten-character text whose first seven characters are the date's month key |
| `Calendar.IsoDateRoundTrip` | app.py:87 | the `str(date)` text written into the sheet reads back as the same valid date |
| `Calendar.ParsedIsoDateIsCanonical` | app.py:87 | any text that parses as a date is exactly that date's `str` form, so the date cell and the date determine each other |
| `Calendar.MonthKeySameMonth` | app.py:123 | two valid dates have equal `strftime("%Y-%m")` keys iff they have the same year and month |
| `Money.ColumnSum` | app.py:104-105 | `x["Amount"].sum() if not x.empty else 0` is the plain sum of the column, and 0 for an empty frame |
| `Ledger.EntryRow` | app.py:87 | the row written for an entry holds the ISO date text, whose first seven characters are the entry's month key; the row also keeps the amount, category and description unchanged, and a type label that reads back as the entry's type |
| `Ledger.EntryRowRoundTrip` | app.py:87 | a well-formed entry (valid date, amount >= 0, category from its type's list) is recovered unchanged from its sheet row |
| `Ledger.ParsedRowIsCanonical` | app.py:87 | a sheet row that reads back as an entry is exactly the row that entry writes |
| `Ledger.LedgerSheet.AddEntry` | app.py:71-87 | "Add" appends exactly one row `[str(date), amount, category, description, type]` at the end and leaves earlier rows unchanged; the new row parses back to the submitted entry, whose category lies in the 12 expense categories for an Expense and in the two income sources for an Income; a sheet whose rows are all well formed stays so (`RowsWellFormed`) |
| `Ledger.ColorImpulse` | app.py:98-99 | the style is `'background-color: orange'` iff the value is "impulse", "son impulse" or "foolish commitments", and `''` iff it is none of them |
| `Ledger.HighlightedRowsAreExpenses` | app.py:75-99 | a well-formed row that `color_impulse` highlights is an Expense row with an expense category: no income source is ever highlighted |
| `Balance.MonthlyFigures` | app.py:104-106 | income and expenses are the sums of this month's income and expense amounts, each 0 for an empty frame, and net savings is income minus expenses |
| `Balance.IncomeRaisesNet` | app.py:104-106 | one more income row this month raises net savings by exactly its amount |
| `Balance.ExpenseLowersNet` | app.py:104-106 | one more expense row this month lowers net savings by exactly its amount |
| `Balance.TotalsNonNegative` | app.py:104-105 | over rows the form could have written, both monthly totals are >= 0 |
| `Balance.JanuaryExample` | app.py:104-106 | income 50000 and expenses 1200 give net savings 48800 |
| `Schedule.NewScheduledRow` | app.py:136-140 | the new row keeps the form's date, amount, category and description; Recurring is "Yes" iff the box is ticked; Frequency is "One-time" iff it is not ticked, and otherwise the chosen frequency's label |
| `Schedule.ScheduleStore.Schedule` | app.py:138-141 | a row is added iff `amt > 0`; the table then grows by exactly that row at its end and earlier rows are unchanged, and otherwise the table is unchanged; a table whose Recurring/Frequency cells agree keeps them agreeing (`RecurrenceConsistent`) |
| `Schedule.Upcoming` | app.py:123 | a row is upcoming iff it is in the scheduled table and its date's `%Y-%m` key equals the current month key; the filter never adds rows |
| `Schedule.UpcomingCounts` | app.py:123 | every row of the current month is kept as many times as the table holds it, and no row of another month is kept |
| `Schedule.Potential` | app.py:123-124 | `potential` is 0 for an empty scheduled table and 0 when no row is dated in the current month |
| `Schedule.PotentialIsMonthOutflow` | app.py:123-124 | `potential`, including its guards for empty frames, equals the row-by-row sum of the amounts of the rows dated in the current month |
| `Schedule.BalanceTab` | app.py:115-125 | the current balance is this month's income minus its expenses; `potential` is the current month's scheduled outflow; and `projected = balance - potential` exactly |
| `Schedule.NothingScheduledThisMonth` | app.py:123-125 | with no scheduled row in the current month (including an empty table), `potential` is 0 and the projection equals the current balance |
| `Schedule.OtherMonthRowIgnored` | app.py:123 | a row dated in a different calendar month from today contributes nothing to today's `potential`, wherever it stands in the table and whatever its Recurring/Frequency cells say |
| `Schedule.ScheduleShiftsProjection` | app.py:123-141 | adding a scheduled row raises this month's `potential` by its amount if it is dated this month, and otherwise leaves it unchanged |
| `Schedule.ProjectedAtMostBalance` | app.py:124-125 | when scheduled amounts are >= 0, the projected balance never exceeds the current balance |
| `Schedule.MonthlyScheduleCountsOnlyInAnchorMonth` | app.py:123-124 | a monthly schedule of 2000 anchored on 2025-01-15 counts 2000 in "2025-01" and 0 in "2025-03": nothing expands recurrences |
| `Auth.MatchingUsers` | app.py:37 | the filtered users are exactly the users whose username and password both match |
| `Auth.Login` | app.py:37-43 | the lookup fails with `NoUserColumns` iff the users sheet has no records; a logged-in user is a row of the sheet that matches both username and password |
| `Auth.LoginSelectsFirstMatch` | app.py:37-39 | login succeeds iff some user row matches both username and password, and the chosen user is the first matching row |
| `Auth.Session.SubmitLogin` | app.py:36-43 | the outcome is the login lookup's; the session's user is set to the first matching row on success and stays unset on a wrong password or an empty users sheet |
| `Auth.Session.constructor` | app.py:28-29 | a fresh session has no user |

## Left out

- Google Sheets access is not modelled, because it is network I/O. This covers the credentials, opening sheets, reading records, appending rows, and creating the "Expenses" and "Budgets" worksheets with their header rows (app.py:11-25, 48-66). The "Expenses" sheet's rows enter the model as the initial rows of `LedgerSheet`, and the users sheet's records as the `users` argument of `Login`.
- The scheduled table `scheduled` is not defined in app.py; it is only written to a CSV file (app.py:142). Its loaded contents enter the model as the initial rows of `ScheduleStore`.
- Every cell of the users sheet is modelled as a string. gspread turns numeric-looking cells into numbers, and then a comparison with typed text would fail; that conversion is not modelled.
- The Streamlit interface is not modelled, because it is presentation. This covers widgets, tabs, metric rendering, `₹{x:,.0f}` formatting, `delta_color`, success and error messages, `st.rerun` and `st.stop`. A button press is the call of the corresponding method.
- Writing the scheduled table to CSV and the `data_editor` "Save Changes" wholesale replacement are not modelled (app.py:142, 145-150), because they are file I/O and UI editing.
- The Excel export and plotly are not modelled, because they are I/O and presentation (app.py:152-160).
- The transactions, visuals, transport, salary, other-income and yearly-summary tabs have no body in app.py, so there is nothing to model.
- How `this_month_inc`, `this_month_exp`, `current_month_str`, `scheduled` and `EXPENSE_CATEGORIES` are built is not modelled: app.py uses them but does not define them. The category of a scheduled row is any string.
- Amounts are exact reals. Floating-point rounding of `number_input` values and pandas sums is not modelled.
- Dates cover Python's year range 1-9999, and every year is written with four digits. pandas `Timestamp`'s narrower range (1677-2262) is not modelled; the date inputs stay within ten years of today.
- A user row keeps only the username, password and sheet URL. Opening the user's own sheet from that URL is I/O.
