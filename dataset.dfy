/** The parsed dataset: a DataFrame with named columns and one row per CSV
    record, and the column aggregates the KPIs are built from. */
module Dataset {
  import opened Floats
  import Dates

  /** One record: its `Date` cell (already converted by `pd.to_datetime`) and
      its other cells, by column name. */
  datatype Row = Row(date: Dates.Date, values: map<string, real>)

  /** `columns` is the header in file order; `rows` keeps the file's row order. */
  datatype Table = Table(columns: seq<string>, rows: seq<Row>)

  const DateColumn := "Date"

  /** A DataFrame is rectangular: every row has a cell in every column, and
      every converted date is a real calendar date. */
  predicate WellFormed(t: Table) {
    forall i :: 0 <= i < |t.rows| ==>
      Dates.Valid(t.rows[i].date) &&
      forall c :: c in t.columns && c != DateColumn ==> c in t.rows[i].values
  }

  predicate HasColumn(rows: seq<Row>, c: string) {
    forall i :: 0 <= i < |rows| ==> c in rows[i].values
  }

  /** `df[c]`: the column's cells, top to bottom. */
  function Column(rows: seq<Row>, c: string): (col: seq<real>)
    requires HasColumn(rows, c)
    ensures |col| == |rows|
    ensures forall i :: 0 <= i < |rows| ==> col[i] == rows[i].values[c]
  {
    if rows == [] then [] else [rows[0].values[c]] + Column(rows[1..], c)
  }

  function Sum(xs: seq<real>): real {
    if xs == [] then 0.0 else xs[0] + Sum(xs[1..])
  }

  /** `Series.mean()` of a column without missing cells. */
  function Mean(xs: seq<real>): (m: real)
    requires |xs| > 0
    ensures m * (|xs| as real) == Sum(xs)
  {
    Sum(xs) / (|xs| as real)
  }

  /** Two columns of one table have the same number of cells, so the quotient
      of their means is the quotient of their sums, zero divisors included. */
  lemma RatioOfMeans(xs: seq<real>, ys: seq<real>)
    requires |xs| == |ys| > 0
    ensures Divide(Mean(xs), Mean(ys)) == Divide(Sum(xs), Sum(ys))
  {
    var n := |xs| as real;
    var a, b := Sum(xs), Sum(ys);
    assert Mean(xs) * n == a;
    assert Mean(ys) * n == b;
    if b != 0.0 {
      assert Mean(ys) != 0.0;
      var q := Mean(xs) / Mean(ys);
      assert q * Mean(ys) == Mean(xs);
      assert q * b == q * (Mean(ys) * n) == (q * Mean(ys)) * n == a;
    } else {
      assert Mean(ys) == 0.0;
      assert Mean(xs) > 0.0 <==> a > 0.0;
      assert Mean(xs) < 0.0 <==> a < 0.0;
    }
  }
}
