/**
 * The part of a pandas DataFrame the invoice tool relies on: a table of labelled
 * rows under named columns, the `loc` writes that set a row, a cell or a whole
 * column (adding the row or column when its index is new), `reindex` and
 * `rename` on columns. Cells are text or empty (NaN).
 */
module Frame {
  import opened Wrappers
  import opened Collections

  /** A cell: `None` is an empty (NaN) cell. */
  type Cell = Option<string>

  /** A row: its label in the index and one cell per column, in column order. */
  datatype Row = Row(index: nat, cells: seq<Cell>)

  /** The value of a DataFrame: its columns and its rows, in order. */
  datatype Table = Table(columns: seq<string>, rows: seq<Row>)

  /** The index of a table. */
  function Labels(rows: seq<Row>): (ls: seq<nat>)
    ensures |ls| == |rows|
    ensures forall k :: 0 <= k < |rows| ==> ls[k] == rows[k].index
  {
    seq(|rows|, k requires 0 <= k < |rows| => rows[k].index)
  }

  /** Every row has one cell per column. */
  predicate Rectangular(t: Table) {
    forall k :: 0 <= k < |t.rows| ==> |t.rows[k].cells| == |t.columns|
  }

  /** A table whose columns and row labels are unique. */
  predicate WellFormed(t: Table) {
    Distinct(t.columns) && Distinct(Labels(t.rows)) && Rectangular(t)
  }

  /** `df.loc[k, c]` by position `k`: an absent column reads as empty. */
  function Get(t: Table, k: nat, c: string): Cell
    requires Rectangular(t) && k < |t.rows|
  {
    if c in t.columns then t.rows[k].cells[IndexOf(t.columns, c)] else None
  }

  /** The cells a dict gives a row: its value under a matching key, empty elsewhere. */
  function Aligned(columns: seq<string>, values: map<string, string>): (cells: seq<Cell>)
    ensures |cells| == |columns|
    ensures forall j :: 0 <= j < |columns| ==>
      cells[j] == (if columns[j] in values then Some(values[columns[j]]) else None)
  {
    seq(|columns|, j requires 0 <= j < |columns| =>
      if columns[j] in values then Some(values[columns[j]]) else None)
  }

  /**
   * `df.loc[index] = values` for a dict: the row labelled `index` becomes the
   * dict aligned on the columns; a new index is appended as the last row.
   */
  function WithRow(t: Table, index: nat, values: map<string, string>): (r: Table)
    requires Rectangular(t)
    ensures r.columns == t.columns && Rectangular(r)
    ensures WellFormed(t) ==> WellFormed(r)
    ensures index !in Labels(t.rows) ==> r.rows == t.rows + [Row(index, Aligned(t.columns, values))]
    ensures index in Labels(t.rows) ==> |r.rows| == |t.rows|
    ensures forall k :: 0 <= k < |t.rows| && t.rows[k].index != index ==> r.rows[k] == t.rows[k]
    ensures exists k :: 0 <= k < |r.rows| && r.rows[k] == Row(index, Aligned(t.columns, values))
  {
    var row := Row(index, Aligned(t.columns, values));
    var ls := Labels(t.rows);
    if index in ls then
      var k := IndexOf(ls, index);
      var r := t.(rows := t.rows[k := row]);
      assert Labels(r.rows) == ls;
      assert r.rows[k] == row;
      r
    else
      var r := t.(rows := t.rows + [row]);
      assert Labels(r.rows) == ls + [index];
      assert r.rows[|t.rows|] == row;
      r
  }

  /**
   * `df.loc[index, col] = v` for an existing column: the one cell changes; a
   * new index is appended as a row that is empty except in `col`.
   */
  function WithCell(t: Table, index: nat, col: string, v: Cell): (r: Table)
    requires Rectangular(t) && col in t.columns
    ensures r.columns == t.columns && Rectangular(r)
    ensures WellFormed(t) ==> WellFormed(r)
    ensures index !in Labels(t.rows) ==>
      r.rows == t.rows + [Row(index, seq(|t.columns|, j requires 0 <= j < |t.columns| =>
        if t.columns[j] == col then v else None))]
    ensures index in Labels(t.rows) ==> |r.rows| == |t.rows|
    ensures forall k :: 0 <= k < |t.rows| && t.rows[k].index != index ==> r.rows[k] == t.rows[k]
  {
    var j := IndexOf(t.columns, col);
    var ls := Labels(t.rows);
    if index in ls then
      var k := IndexOf(ls, index);
      var r := t.(rows := t.rows[k := t.rows[k].(cells := t.rows[k].cells[j := v])]);
      assert Labels(r.rows) == ls;
      r
    else
      var cells := seq(|t.columns|, c requires 0 <= c < |t.columns| => if t.columns[c] == col then v else None);
      var r := t.(rows := t.rows + [Row(index, cells)]);
      assert Labels(r.rows) == ls + [index];
      r
  }

  /** The row labelled `index` after a cell write to it keeps every other cell. */
  lemma WithCellExisting(t: Table, k: nat, col: string, v: Cell)
    requires WellFormed(t) && k < |t.rows| && col in t.columns
    ensures var r := WithCell(t, t.rows[k].index, col, v);
      |r.rows| == |t.rows| &&
      r.rows[k] == t.rows[k].(cells := t.rows[k].cells[IndexOf(t.columns, col) := v])
  {
    IndexOfDistinct(Labels(t.rows), k);
  }

  /**
   * `df.loc[:, col] = v`: every row holds `v` under `col`; a new column is
   * appended after the others.
   */
  function WithColumn(t: Table, col: string, v: string): (r: Table)
    requires Rectangular(t)
    ensures Rectangular(r) && |r.rows| == |t.rows|
    ensures WellFormed(t) ==> WellFormed(r)
    ensures col in r.columns
    ensures col in t.columns ==> r.columns == t.columns
    ensures col !in t.columns ==> r.columns == t.columns + [col]
    ensures forall k :: 0 <= k < |r.rows| ==> r.rows[k].index == t.rows[k].index
    ensures forall k :: 0 <= k < |r.rows| ==> Get(r, k, col) == Some(v)
    ensures forall k, c :: 0 <= k < |r.rows| && c != col ==> Get(r, k, c) == Get(t, k, c)
  {
    if col in t.columns then
      var j := IndexOf(t.columns, col);
      var r := t.(rows := seq(|t.rows|, k requires 0 <= k < |t.rows| =>
        t.rows[k].(cells := t.rows[k].cells[j := Some(v)])));
      OverwrittenColumn(t, col, v, r);
      r
    else
      var r := Table(t.columns + [col], seq(|t.rows|, k requires 0 <= k < |t.rows| =>
        t.rows[k].(cells := t.rows[k].cells + [Some(v)])));
      AppendedColumn(t, col, v, r);
      r
  }

  /** Overwriting an existing column sets it in every row and leaves every other cell and label alone. */
  lemma OverwrittenColumn(t: Table, col: string, v: string, r: Table)
    requires Rectangular(t) && col in t.columns
    requires r == t.(rows := seq(|t.rows|, k requires 0 <= k < |t.rows| =>
      t.rows[k].(cells := t.rows[k].cells[IndexOf(t.columns, col) := Some(v)])))
    ensures Rectangular(r) && |r.rows| == |t.rows| && r.columns == t.columns
    ensures Labels(r.rows) == Labels(t.rows)
    ensures forall k :: 0 <= k < |r.rows| ==> r.rows[k].index == t.rows[k].index
    ensures forall k :: 0 <= k < |r.rows| ==> Get(r, k, col) == Some(v)
    ensures forall k, c :: 0 <= k < |r.rows| && c != col ==> Get(r, k, c) == Get(t, k, c)
  {
    assert Labels(r.rows) == Labels(t.rows);
  }

  /** Appending a new column sets it in every row, keeps every other cell and label, and keeps columns distinct. */
  lemma AppendedColumn(t: Table, col: string, v: string, r: Table)
    requires Rectangular(t) && col !in t.columns
    requires r == Table(t.columns + [col], seq(|t.rows|, k requires 0 <= k < |t.rows| =>
      t.rows[k].(cells := t.rows[k].cells + [Some(v)])))
    ensures Rectangular(r) && |r.rows| == |t.rows|
    ensures Labels(r.rows) == Labels(t.rows)
    ensures Distinct(t.columns) ==> Distinct(r.columns)
    ensures forall k :: 0 <= k < |r.rows| ==> r.rows[k].index == t.rows[k].index
    ensures forall k :: 0 <= k < |r.rows| ==> Get(r, k, col) == Some(v)
    ensures forall k, c :: 0 <= k < |r.rows| && c != col ==> Get(r, k, c) == Get(t, k, c)
  {
    assert Labels(r.rows) == Labels(t.rows);
    forall c | c in t.columns ensures IndexOf(r.columns, c) == IndexOf(t.columns, c) {
      IndexOfPrefix(t.columns, [col], c);
    }
    assert IndexOf(r.columns, col) == |t.columns|;
  }

  /**
   * `df.reindex(columns=cols)`: the same rows under exactly `cols`, each cell
   * copied from the column of that name, empty where there is none.
   */
  function Reindex(t: Table, cols: seq<string>): (r: Table)
    requires Rectangular(t)
    ensures r.columns == cols && Rectangular(r) && |r.rows| == |t.rows|
    ensures forall k :: 0 <= k < |r.rows| ==> r.rows[k].index == t.rows[k].index
    ensures forall k, j :: 0 <= k < |r.rows| && 0 <= j < |cols| ==> r.rows[k].cells[j] == Get(t, k, cols[j])
  {
    Table(cols, seq(|t.rows|, k requires 0 <= k < |t.rows| =>
      Row(t.rows[k].index, seq(|cols|, j requires 0 <= j < |cols| => Get(t, k, cols[j])))))
  }

  /** `df.rename(columns=m)`: each column named in `m` takes its new name; cells stay. */
  function Rename(t: Table, m: map<string, string>): (r: Table)
    ensures |r.columns| == |t.columns| && r.rows == t.rows
    ensures forall j :: 0 <= j < |t.columns| && t.columns[j] in m ==> r.columns[j] == m[t.columns[j]]
    ensures forall j :: 0 <= j < |t.columns| && t.columns[j] !in m ==> r.columns[j] == t.columns[j]
  {
    Table(seq(|t.columns|, j requires 0 <= j < |t.columns| =>
      if t.columns[j] in m then m[t.columns[j]] else t.columns[j]), t.rows)
  }

  /** A DataFrame that its owner updates in place through `loc`. */
  class DataFrame {
    var columns: seq<string>
    var rows: seq<Row>

    function View(): Table
      reads this
    {
      Table(columns, rows)
    }

    ghost predicate Valid()
      reads this
    {
      WellFormed(View())
    }

    /** `pd.DataFrame(columns=columns)`: no rows. */
    constructor (columns: seq<string>)
      requires Distinct(columns)
      ensures Valid() && View() == Table(columns, [])
    {
      this.columns := columns;
      this.rows := [];
    }

    /** `df.loc[index] = values`. */
    method SetRow(index: nat, values: map<string, string>)
      requires Valid()
      modifies this
      ensures Valid() && View() == WithRow(old(View()), index, values)
    {
      rows := WithRow(View(), index, values).rows;
    }

    /** `df.loc[index, col] = v`. */
    method SetCell(index: nat, col: string, v: Cell)
      requires Valid() && col in columns
      modifies this
      ensures Valid() && View() == WithCell(old(View()), index, col, v)
    {
      rows := WithCell(View(), index, col, v).rows;
    }

    /** `df.loc[:, col] = v`. */
    method SetColumn(col: string, v: string)
      requires Valid()
      modifies this
      ensures Valid() && View() == WithColumn(old(View()), col, v)
    {
      var r := WithColumn(View(), col, v);
      columns, rows := r.columns, r.rows;
    }
  }
}
