/** Rows of a quotation table: a serial number ("Sl.No", a display label, not a key), a description and
    an amount, together with the sums taken over a table's amount column. */
module LineItems {

  datatype LineItem = LineItem(serial: string, description: string, amount: real)

  /** The serial-number column, in order. */
  function Serials(rows: seq<LineItem>): seq<string> {
    seq(|rows|, i requires 0 <= i < |rows| => rows[i].serial)
  }

  /** The amount column, in order. */
  function Amounts(rows: seq<LineItem>): seq<real> {
    seq(|rows|, i requires 0 <= i < |rows| => rows[i].amount)
  }

  /** What one row adds to a sum that skips the serial numbers in `skip`. */
  function Contribution(row: LineItem, skip: set<string>): real {
    if row.serial in skip then 0.0 else row.amount
  }

  /** The sum of the amounts of the rows whose serial number is not in `skip`. */
  function SumExcluding(rows: seq<LineItem>, skip: set<string>): real {
    if rows == [] then 0.0
    else SumExcluding(rows[..|rows| - 1], skip) + Contribution(rows[|rows| - 1], skip)
  }

  /** The sum of the whole amount column. */
  function Total(rows: seq<LineItem>): real {
    SumExcluding(rows, {})
  }

  /** Sums distribute over the concatenation of two tables. */
  lemma {:induction false} SumExcludingAppend(a: seq<LineItem>, b: seq<LineItem>, skip: set<string>)
    ensures SumExcluding(a + b, skip) == SumExcluding(a, skip) + SumExcluding(b, skip)
  {
    if b == [] {
      assert a + b == a;
    } else {
      var n := |b| - 1;
      assert (a + b)[..|a + b| - 1] == a + b[..n];
      SumExcludingAppend(a, b[..n], skip);
    }
  }

  /** The sum over the first k + 1 rows extends the sum over the first k by row k. */
  lemma SumExcludingStep(rows: seq<LineItem>, k: nat, skip: set<string>)
    requires k < |rows|
    ensures SumExcluding(rows[..k + 1], skip) == SumExcluding(rows[..k], skip) + Contribution(rows[k], skip)
  {
    assert rows[..k + 1][..k] == rows[..k];
  }

  /** The sum over a five-row table, row by row. */
  lemma SumExcludingFive(rows: seq<LineItem>, skip: set<string>)
    requires |rows| == 5
    ensures SumExcluding(rows, skip) == Contribution(rows[0], skip) + Contribution(rows[1], skip)
      + Contribution(rows[2], skip) + Contribution(rows[3], skip) + Contribution(rows[4], skip)
  {
    assert rows[..0] == [];
    SumExcludingStep(rows, 0, skip);
    SumExcludingStep(rows, 1, skip);
    SumExcludingStep(rows, 2, skip);
    SumExcludingStep(rows, 3, skip);
    SumExcludingStep(rows, 4, skip);
    assert rows[..5] == rows;
  }

  /** The sum over a seven-row table, row by row. */
  lemma SumExcludingSeven(rows: seq<LineItem>, skip: set<string>)
    requires |rows| == 7
    ensures SumExcluding(rows, skip) == Contribution(rows[0], skip) + Contribution(rows[1], skip)
      + Contribution(rows[2], skip) + Contribution(rows[3], skip) + Contribution(rows[4], skip)
      + Contribution(rows[5], skip) + Contribution(rows[6], skip)
  {
    SumExcludingFive(rows[..5], skip);
    SumExcludingStep(rows, 5, skip);
    SumExcludingStep(rows, 6, skip);
    assert rows[..7] == rows;
  }
}
