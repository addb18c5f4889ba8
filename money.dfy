/** Sums of amount columns. Amounts are exact reals; float rounding is not modelled. */
module Money {

  function Sum(xs: seq<real>): real {
    if xs == [] then 0.0 else xs[0] + Sum(xs[1..])
  }

  /** The values of one column of a frame, `df["Amount"]`, row by row. */
  function Column<Row>(rows: seq<Row>, cell: Row -> real): (column: seq<real>)
    ensures |column| == |rows|
    ensures forall i :: 0 <= i < |rows| ==> column[i] == cell(rows[i])
  {
    seq(|rows|, i requires 0 <= i < |rows| => cell(rows[i]))
  }

  lemma ColumnAppend<Row>(a: seq<Row>, b: seq<Row>, cell: Row -> real)
    ensures Column(a + b, cell) == Column(a, cell) + Column(b, cell)
  {
  }

  predicate AllNonNegative(xs: seq<real>) {
    forall i :: 0 <= i < |xs| ==> xs[i] >= 0.0
  }

  lemma {:induction false} SumAppend(a: seq<real>, b: seq<real>)
    ensures Sum(a + b) == Sum(a) + Sum(b)
  {
    if a == [] {
      assert a + b == b;
    } else {
      assert (a + b)[1..] == a[1..] + b;
      SumAppend(a[1..], b);
    }
  }

  lemma {:induction false} SumNonNegative(xs: seq<real>)
    requires AllNonNegative(xs)
    ensures Sum(xs) >= 0.0
  {
    if xs != [] {
      SumNonNegative(xs[1..]);
    }
  }

  /**
   * `df["Amount"].sum() if not df.empty else 0`: the guard for the empty frame
   * changes nothing, the result is the plain sum of the column.
   */
  function ColumnSum(column: seq<real>): (total: real)
    ensures total == Sum(column)
    ensures column == [] ==> total == 0.0
  {
    if |column| == 0 then 0.0 else Sum(column)
  }
}
