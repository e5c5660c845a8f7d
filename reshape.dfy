/**
 * The summary view of the result table: every row is stamped with the invoice
 * type, then eight of the columns are picked out in a fixed order and given
 * the names the summary sheet uses.
 */
module Reshape {
  import opened Wrappers
  import opened Collections
  import opened Frame
  import opened Invoice
  import Batch

  /** The columns the summary is taken from, in summary order. */
  const SourceColumns: seq<string> :=
    ["发票代码", "发票编号", "货物或应税劳务、服务名称", "开票类型", "价税合计", "税率", "合计税额", "合计金额"]

  /** The names those columns carry in the summary, position by position. */
  const SummaryColumns: seq<string> :=
    ["发票代码", "发票编号", "发票名称", "开票类型", "发票金额（含税）", "税率%", "税额", "发票金额（不含税）"]

  /** The column that records the invoice type, and the one type the tool handles. */
  const InvoiceTypeColumn: string := "开票类型"
  const InvoiceType: string := "增值税专用发票"

  lemma ColumnsShape()
    ensures |SourceColumns| == |SummaryColumns| == 8
    ensures Distinct(SourceColumns) && Distinct(SummaryColumns)
    ensures SourceColumns[3] == InvoiceTypeColumn
  {
  }

  /** The renaming `{old: new}` built by pairing the two column lists. */
  function Renaming(): (m: map<string, string>)
    ensures forall j :: 0 <= j < 8 ==> SourceColumns[j] in m && m[SourceColumns[j]] == SummaryColumns[j]
  {
    ColumnsShape();
    forall j | 0 <= j < 8 ensures Dict(SourceColumns, SummaryColumns)[SourceColumns[j]] == SummaryColumns[j] {
      DictAt(SourceColumns, SummaryColumns, j);
    }
    Dict(SourceColumns, SummaryColumns)
  }

  /**
   * The summary of a table: its rows, labels kept, each holding in column `j`
   * the cell under source column `j` (empty when the table has no such column),
   * under the summary names.
   */
  function Summary(t: Table): (r: Table)
    requires Rectangular(t)
    ensures r.columns == SummaryColumns && Rectangular(r) && |r.rows| == |t.rows|
  {
    Table(SummaryColumns, seq(|t.rows|, k requires 0 <= k < |t.rows| =>
      Row(t.rows[k].index, seq(8, j requires 0 <= j < 8 => Get(t, k, SourceColumns[j])))))
  }

  /** Reindexing on the source columns, then renaming them pairwise, gives the summary. */
  lemma ReindexRename(t: Table)
    requires Rectangular(t)
    ensures Rename(Reindex(t, SourceColumns), Renaming()) == Summary(t)
  {
    var r := Rename(Reindex(t, SourceColumns), Renaming());
    var s := Summary(t);
    assert r.columns == s.columns;
    forall k | 0 <= k < |t.rows| ensures r.rows[k] == s.rows[k] {
      assert r.rows[k].cells == s.rows[k].cells;
    }
  }

  /**
   * `post_process(df)`: sets the invoice type in every row of `df` itself,
   * adding that column after the others when it is new, and returns the
   * stamped table reindexed on the source columns and renamed.
   */
  method PostProcess(df: DataFrame) returns (summary: Table)
    requires df.Valid()
    modifies df
    ensures df.Valid() && df.View() == WithColumn(old(df.View()), InvoiceTypeColumn, InvoiceType)
    ensures summary == Summary(df.View())
  {
    df.SetColumn(InvoiceTypeColumn, InvoiceType);
    var projected := Reindex(df.View(), SourceColumns);
    summary := Rename(projected, Renaming());
    ReindexRename(df.View());
  }

  /**
   * The layout of the summary of `t` once stamped: the summary columns, without
   * repeats; one row per row of `t`, same labels, same order; the invoice type
   * in the type column and, in each other column, the cell `t` holds under the
   * matching source column (empty when `t` has no such column).
   */
  lemma SummaryLayout(t: Table)
    requires WellFormed(t)
    ensures var s := Summary(WithColumn(t, InvoiceTypeColumn, InvoiceType));
      && s.columns == SummaryColumns && WellFormed(s)
      && |s.rows| == |t.rows|
      && (forall k :: 0 <= k < |s.rows| ==> s.rows[k].index == t.rows[k].index)
      && (forall k :: 0 <= k < |s.rows| ==> s.rows[k].cells[3] == Some(InvoiceType))
      && (forall k, j :: 0 <= k < |t.rows| && 0 <= j < 8 && j != 3 ==>
            s.rows[k].cells[j] == Get(t, k, SourceColumns[j]))
  {
    ColumnsShape();
    var u := WithColumn(t, InvoiceTypeColumn, InvoiceType);
    var s := Summary(u);
    assert Labels(s.rows) == Labels(u.rows) == Labels(t.rows);
  }

  /**
   * The summary of the batch result: its row `k` belongs to the file at the
   * row's label and holds the invoice type; under every other summary column
   * it holds what the batch wrote for that file under the matching source
   * column: empty for a file that failed, its record's value otherwise.
   */
  lemma BatchSummary(files: seq<Batch.File>, k: nat)
    requires k < |Batch.Fold(files).table.rows|
    ensures var t := Batch.Fold(files).table;
      var s := Summary(WithColumn(t, InvoiceTypeColumn, InvoiceType));
      var i := t.rows[k].index;
      && k < |s.rows| && s.rows[k].index == i && i < |files|
      && s.rows[k].cells[3] == Some(InvoiceType)
      && (forall j :: 0 <= j < 8 && j != 3 ==> s.rows[k].cells[j] == Batch.Written(files[i], SourceColumns[j]))
  {
    var t := Batch.Fold(files).table;
    FoldWellFormed(files);
    SummaryLayout(t);
    Batch.RowContents(files, k);
    SourceInRecord();
  }

  lemma FoldWellFormed(files: seq<Batch.File>)
    ensures WellFormed(Batch.Fold(files).table)
  {
    Batch.FoldSummarises(files);
  }

  /** Every source column but the type is a column of the normalised record. */
  lemma SourceInRecord()
    ensures forall j :: 0 <= j < 8 && j != 3 ==> SourceColumns[j] in RecordColumns && SourceColumns[j] != FileNameColumn
  {
    assert SourceColumns[0] == RecordColumns[0];
    assert SourceColumns[1] == RecordColumns[1];
    assert SourceColumns[2] == RecordColumns[8];
    assert SourceColumns[4] == RecordColumns[14];
    assert SourceColumns[5] == RecordColumns[10];
    assert SourceColumns[6] == RecordColumns[13];
    assert SourceColumns[7] == RecordColumns[12];
  }
}
