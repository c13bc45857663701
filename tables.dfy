/**
 * Already-loaded tables (a pandas DataFrame after `read_csv`/`read_excel`):
 * an ordered list of column headers and an ordered list of rows, each row the
 * dictionary that `DataFrame.iloc[i].to_dict()` yields.
 */
module Tables {
  import opened Wrappers

  /** One cell: text, an integer, or an empty cell (pandas reads it as NaN). */
  datatype Cell = Text(s: string) | Number(n: int) | Empty

  type Row = map<string, Cell>

  datatype Dataset = Dataset(columns: seq<string>, rows: seq<Row>)

  /** Every row carries exactly the dataset's columns, as `to_dict()` gives them. */
  ghost predicate WellFormed(d: Dataset)
  {
    forall i :: 0 <= i < |d.rows| ==> d.rows[i].Keys == set c | c in d.columns
  }

  /** The cell of `row` under `col`; a column the row lacks reads as empty. */
  function CellAt(row: Row, col: string): Cell
  {
    if col in row then row[col] else Empty
  }

  /**
   * Element-wise `==` of a column against a value: an empty cell (NaN) equals
   * nothing, and a text never equals a number.  No trimming, no case folding.
   */
  predicate CellEq(a: Cell, b: Cell): (r: bool)
    ensures r ==> a == b
    ensures a.Empty? || b.Empty? ==> !r
    ensures a.Text? && b.Number? ==> !r
    ensures a == b && !a.Empty? ==> r
  {
    !a.Empty? && a == b
  }

  predicate RowMatches(row: Row, col: string, target: Cell)
  {
    CellEq(CellAt(row, col), target)
  }

  /** `i` is the position of the first row whose `col` cell equals `target`. */
  ghost predicate IsFirstMatch(rows: seq<Row>, col: string, target: Cell, i: int)
  {
    && 0 <= i < |rows|
    && RowMatches(rows[i], col, target)
    && forall j :: 0 <= j < i ==> !RowMatches(rows[j], col, target)
  }

  ghost predicate AnyMatch(rows: seq<Row>, col: string, target: Cell)
  {
    exists j :: 0 <= j < |rows| && RowMatches(rows[j], col, target)
  }

  /**
   * `df[df[col] == target]`: the matching rows, in dataset order.  The
   * selection is empty exactly when no row matches, and its first element
   * (`.iloc[0]`) is the first matching row of the whole table.
   */
  function Select(rows: seq<Row>, col: string, target: Cell): (r: seq<Row>)
    ensures |r| <= |rows|
    ensures forall x :: x in r ==> x in rows && RowMatches(x, col, target)
    ensures forall x :: x in rows && RowMatches(x, col, target) ==> x in r
    ensures |r| > 0 <==> AnyMatch(rows, col, target)
    ensures |r| > 0 ==> exists i :: IsFirstMatch(rows, col, target, i) && r[0] == rows[i]
  {
    if |rows| == 0 then []
    else if RowMatches(rows[0], col, target) then
      assert IsFirstMatch(rows, col, target, 0);
      [rows[0]] + Select(rows[1..], col, target)
    else
      FirstMatchAfterMiss(rows, col, target);
      Select(rows[1..], col, target)
  }

  /** Past a first row that does not match, the first match moves one position down. */
  lemma FirstMatchAfterMiss(rows: seq<Row>, col: string, target: Cell)
    requires |rows| > 0 && !RowMatches(rows[0], col, target)
    ensures AnyMatch(rows, col, target) <==> AnyMatch(rows[1..], col, target)
    ensures forall i :: IsFirstMatch(rows[1..], col, target, i) ==>
              IsFirstMatch(rows, col, target, i + 1) && rows[1..][i] == rows[i + 1]
  {
    var tail := rows[1..];
    if AnyMatch(rows, col, target) {
      var j :| 0 <= j < |rows| && RowMatches(rows[j], col, target);
      assert tail[j - 1] == rows[j];
    }
    forall i | IsFirstMatch(tail, col, target, i)
      ensures IsFirstMatch(rows, col, target, i + 1)
    {
      forall j | 0 <= j < i + 1 ensures !RowMatches(rows[j], col, target) {
        if j > 0 { assert rows[j] == tail[j - 1]; }
      }
    }
  }

  /**
   * The filter keeps table order and multiplicity: selecting from two blocks
   * of rows gives the selection of the first block followed by that of the
   * second.  With the membership and size clauses of `Select` on a single
   * row, this fixes the selection of every table.
   */
  lemma {:induction false} SelectAppend(a: seq<Row>, b: seq<Row>, col: string, target: Cell)
    ensures Select(a + b, col, target) == Select(a, col, target) + Select(b, col, target)
  {
    if |a| == 0 {
      assert a + b == b;
    } else {
      assert (a + b)[1..] == a[1..] + b;
      SelectAppend(a[1..], b, col, target);
    }
  }

  /** Two first-match positions for the same column and value coincide. */
  lemma FirstMatchUnique(rows: seq<Row>, col: string, target: Cell, i: int, i': int)
    requires IsFirstMatch(rows, col, target, i) && IsFirstMatch(rows, col, target, i')
    ensures i == i'
  {
  }
}
