/**
 * The batch loop of the invoice tool: each uploaded file in turn is recognised
 * and normalised; a record whose invoice number is new is written as the row
 * labelled with the file's position, a file that fails is written as a row
 * holding only its name, and a repeated invoice number writes nothing. The
 * recognition call (token, HTTP, base64) is abstracted as each upload's answer.
 * The loop is specified by `Step` and `Fold` over the normalised outcomes, and
 * `Summarises` is the invariant the loop keeps.
 */
module Batch {
  import opened Wrappers
  import opened Invoice
  import opened Collections
  import opened Frame

  /**
   * One uploaded file as the loop receives it: the recognition service's
   * answer, `None` when it answered with nothing or the call raised, and the
   * file's display name.
   */
  datatype Upload = Upload(response: Option<FieldMap>, name: string)

  /**
   * One file as the loop body sees it once `dict_process` has run: the record,
   * `None` when there was no answer or normalisation raised, and the name.
   */
  datatype File = File(record: Option<Record>, name: string)

  /** `dict_process(ocr_response(file))` for one upload, `None` where either raised. */
  function Outcome(u: Upload): (f: File)
    ensures f.name == u.name
    ensures f.record.Some? <==> u.response.Some? && DictProcess(u.response.value).Success?
    ensures f.record.Some? ==> f.record.value == DictProcess(u.response.value).value
  {
    match u.response
    case None => File(None, u.name)
    case Some(d) => File(DictProcess(d).ToOption(), u.name)
  }

  /** The outcomes of a batch of uploads, position by position. */
  function Outcomes(uploads: seq<Upload>): (files: seq<File>)
    ensures |files| == |uploads|
    ensures forall i :: 0 <= i < |uploads| ==> files[i] == Outcome(uploads[i])
  {
    seq(|uploads|, i requires 0 <= i < |uploads| => Outcome(uploads[i]))
  }

  /** The columns of the result table: the file name, then the record's columns in order. */
  const TableColumns: seq<string> := [FileNameColumn] + RecordColumns

  lemma TableColumnsShape()
    ensures |TableColumns| == 21 && Distinct(TableColumns)
    ensures IndexOf(TableColumns, FileNameColumn) == 0
    ensures forall c :: c in RecordColumns ==> c in TableColumns && c != FileNameColumn
  {
    RecordColumnsDistinct();
  }

  /**
   * The invoice number of a file: `None` when it has no record, or a record
   * without the number (reading it would raise).
   */
  function Number(f: File): (n: Option<string>)
    ensures n.Some? <==> f.record.Some? && InvoiceNumberColumn in f.record.value
    ensures n.Some? ==> n.value == f.record.value[InvoiceNumberColumn]
  {
    match f.record
    case None => None
    case Some(rec) => if InvoiceNumberColumn in rec then Some(rec[InvoiceNumberColumn]) else None
  }

  /** The loop's state: the table and the list of invoice numbers seen. */
  datatype State = State(table: Table, seen: seq<string>)

  /** The state before the first file. */
  function Start(): State
  {
    State(Table(TableColumns, []), [])
  }

  /** One iteration of the loop, for the file at position `i`. */
  function Step(s: State, i: nat, f: File): (r: State)
    requires Rectangular(s.table) && FileNameColumn in s.table.columns
    ensures r.table.columns == s.table.columns && Rectangular(r.table)
  {
    match Number(f)
    case None => s.(table := WithCell(s.table, i, FileNameColumn, Some(f.name)))
    case Some(number) =>
      if number !in s.seen then
        State(WithCell(WithRow(s.table, i, f.record.value), i, FileNameColumn, Some(f.name)), s.seen + [number])
      else s
  }

  /** The state after the loop has run over `files`. */
  function Fold(files: seq<File>): (s: State)
    ensures s.table.columns == TableColumns && Rectangular(s.table)
  {
    if |files| == 0 then Start()
    else Step(Fold(files[..|files| - 1]), |files| - 1, files[|files| - 1])
  }

  /** `main(files)` with the recognition service's answers given: the table it returns. */
  method ProcessFiles(uploads: seq<Upload>) returns (df: DataFrame)
    ensures fresh(df) && df.Valid()
    ensures df.View() == Fold(Outcomes(uploads)).table
  {
    ghost var files := Outcomes(uploads);
    TableColumnsShape();
    df := new DataFrame(TableColumns);
    var seen: seq<string> := [];
    var i := 0;
    while i < |uploads|
      invariant 0 <= i <= |uploads|
      invariant fresh(df) && df.Valid()
      invariant State(df.View(), seen) == Fold(files[..i])
    {
      FoldStep(files, i);
      seen := Visit(df, seen, i, Outcome(uploads[i]));
      i := i + 1;
    }
    assert files[..|uploads|] == files;
  }

  /**
   * The body of the loop for the file at position `i`: a new invoice number is
   * recorded and its record written as row `i` with the file name; a failure
   * writes the file name alone into row `i`; a repeated number does nothing.
   */
  method Visit(df: DataFrame, seen: seq<string>, i: nat, f: File) returns (seen': seq<string>)
    requires df.Valid() && df.columns == TableColumns
    modifies df
    ensures df.Valid() && State(df.View(), seen') == Step(State(old(df.View()), seen), i, f)
  {
    TableColumnsShape();
    seen' := seen;
    if f.record.Some? && InvoiceNumberColumn in f.record.value {
      var rec := f.record.value;
      if rec[InvoiceNumberColumn] !in seen {
        seen' := seen + [rec[InvoiceNumberColumn]];
        df.SetRow(i, rec);
        df.SetCell(i, FileNameColumn, Some(f.name));
      }
    } else {
      df.SetCell(i, FileNameColumn, Some(f.name));
    }
  }

  /** The fold over one more file is one more step. */
  lemma FoldStep(files: seq<File>, i: nat)
    requires i < |files|
    ensures Fold(files[..i + 1]) == Step(Fold(files[..i]), i, files[i])
  {
    assert files[..i + 1][..i] == files[..i];
  }

  // ---------------------------------------------------------------------------
  // What the table and the seen-list hold after the loop.

  /** No record, or no number in it: the file gets a row with its name only. */
  predicate Failed(f: File) {
    Number(f).None?
  }

  /** File `i` was recognised and no earlier file has its invoice number. */
  predicate FirstOccurrence(files: seq<File>, i: nat)
    requires i < |files|
  {
    Number(files[i]).Some? && forall j :: 0 <= j < i ==> Number(files[j]) != Number(files[i])
  }

  /** The loop writes a row for file `i`. */
  predicate Kept(files: seq<File>, i: nat)
    requires i < |files|
  {
    Failed(files[i]) || FirstOccurrence(files, i)
  }

  /** The cells of the row written for a file: its name, then its record or nothing. */
  function CellsFor(f: File): seq<Cell>
  {
    if Failed(f) then
      seq(|TableColumns|, j requires 0 <= j < |TableColumns| =>
        if TableColumns[j] == FileNameColumn then Some(f.name) else None)
    else Aligned(TableColumns, f.record.value)[0 := Some(f.name)]
  }

  /** The number of files that failed. */
  function Failures(files: seq<File>): nat
  {
    if |files| == 0 then 0
    else Failures(files[..|files| - 1]) + (if Failed(files[|files| - 1]) then 1 else 0)
  }

  ghost predicate Increasing(ls: seq<nat>) {
    forall a, b :: 0 <= a < b < |ls| ==> ls[a] < ls[b]
  }

  /** Some file among `files` was recognised with invoice number `x`. */
  ghost predicate Recorded(files: seq<File>, x: string) {
    exists i :: 0 <= i < |files| && Number(files[i]) == Some(x)
  }

  /** Each row is labelled with a file's position and holds that file's cells. */
  ghost predicate RowsFor(files: seq<File>, rows: seq<Row>) {
    forall k :: 0 <= k < |rows| ==>
      rows[k].index < |files| && rows[k].cells == CellsFor(files[rows[k].index])
  }

  /**
   * `s` is what the loop leaves after `files`: rows labelled by position in
   * increasing order, one exactly for each failed or first-occurrence file and
   * holding that file's cells; a seen-list without repeats holding exactly the
   * invoice numbers recognised; as many rows as failures plus numbers seen.
   */
  ghost predicate Summarises(files: seq<File>, s: State) {
    && WellFormed(s.table) && s.table.columns == TableColumns
    && Increasing(Labels(s.table.rows))
    && RowsFor(files, s.table.rows)
    && (forall i :: 0 <= i < |files| ==> (i in Labels(s.table.rows) <==> Kept(files, i)))
    && Distinct(s.seen)
    && (forall x :: x in s.seen <==> Recorded(files, x))
    && |s.table.rows| == Failures(files) + |s.seen|
    && |s.table.rows| <= |files|
  }

  lemma StartSummarises()
    ensures Summarises([], Start())
  {
    var t := Start().table;
    assert Distinct(TableColumns) by {
      TableColumnsShape();
    }
    assert Labels(t.rows) == [];
    assert forall x :: !Recorded([], x);
  }

  /** Appending a file changes nothing about the earlier files. */
  lemma Extend(files: seq<File>, f: File)
    ensures (files + [f])[..|files|] == files
    ensures forall j :: 0 <= j < |files| ==> Kept(files + [f], j) == Kept(files, j)
    ensures forall x :: Recorded(files + [f], x) <==> Recorded(files, x) || Number(f) == Some(x)
    ensures Failures(files + [f]) == Failures(files) + (if Failed(f) then 1 else 0)
  {
    assert (files + [f])[..|files|] == files;
    forall j | 0 <= j < |files| ensures Kept(files + [f], j) == Kept(files, j) {
      ExtendKept(files, f, j);
    }
    forall x ensures Recorded(files + [f], x) <==> Recorded(files, x) || Number(f) == Some(x) {
      ExtendRecorded(files, f, x);
    }
  }

  /** Adding a file at the end does not change whether an earlier file is kept. */
  lemma ExtendKept(files: seq<File>, f: File, j: nat)
    requires j < |files|
    ensures Kept(files + [f], j) == Kept(files, j)
  {
    var files' := files + [f];
    assert files'[j] == files[j];
    assert forall a :: 0 <= a < j ==> files'[a] == files[a];
  }

  /** A number is recorded after one more file exactly when it was before or is that file's. */
  lemma ExtendRecorded(files: seq<File>, f: File, x: string)
    ensures Recorded(files + [f], x) <==> Recorded(files, x) || Number(f) == Some(x)
  {
    var files' := files + [f];
    if Recorded(files', x) {
      var j :| 0 <= j < |files'| && Number(files'[j]) == Some(x);
      if j < |files| {
        assert files'[j] == files[j];
      }
    }
    if Recorded(files, x) {
      var j :| 0 <= j < |files| && Number(files[j]) == Some(x);
      assert files'[j] == files[j];
    }
    if Number(f) == Some(x) {
      assert files'[|files|] == f;
    }
  }

  /** A failed file appends a row labelled with its position that holds only its name. */
  lemma StepFailed(files: seq<File>, s: State, f: File)
    requires Summarises(files, s) && Failed(f)
    ensures Summarises(files + [f], Step(s, |files|, f))
    ensures Step(s, |files|, f).seen == s.seen
    ensures Step(s, |files|, f).table.rows == s.table.rows + [Row(|files|, CellsFor(f))]
  {
    Extend(files, f);
    assert |files| !in Labels(s.table.rows);
    FailedRow(s.table, |files|, f);
    AppendRow(files, s.table, f);
    assert Kept(files + [f], |files|);
  }

  /** The row written for a file that failed: its name, nothing else. */
  lemma FailedRow(t: Table, i: nat, f: File)
    requires WellFormed(t) && t.columns == TableColumns && i !in Labels(t.rows)
    requires Failed(f)
    ensures WithCell(t, i, FileNameColumn, Some(f.name)).rows == t.rows + [Row(i, CellsFor(f))]
  {
    TableColumnsShape();
    var r := WithCell(t, i, FileNameColumn, Some(f.name));
    assert r.rows[|t.rows|].cells == CellsFor(f);
  }

  /** Appending the row of the next file keeps the invariant's facts about rows. */
  lemma AppendRow(files: seq<File>, t: Table, f: File)
    requires WellFormed(t) && t.columns == TableColumns
    requires Increasing(Labels(t.rows)) && RowsFor(files, t.rows)
    ensures var rows' := t.rows + [Row(|files|, CellsFor(f))];
      && WellFormed(t.(rows := rows')) && Increasing(Labels(rows'))
      && RowsFor(files + [f], rows') && Labels(rows') == Labels(t.rows) + [|files|]
  {
    var rows' := t.rows + [Row(|files|, CellsFor(f))];
    AppendLabels(t.rows, |files|, CellsFor(f));
    AppendRowsFor(files, t.rows, f);
    assert Rectangular(t.(rows := rows')) by {
      CellsForWidth(f);
      assert forall k :: 0 <= k < |t.rows| ==> rows'[k] == t.rows[k];
    }
  }

  /** A label above every other, appended, keeps the labels increasing. */
  lemma AppendLabels(rows: seq<Row>, index: nat, cells: seq<Cell>)
    requires Increasing(Labels(rows))
    requires forall k :: 0 <= k < |rows| ==> rows[k].index < index
    ensures Labels(rows + [Row(index, cells)]) == Labels(rows) + [index]
    ensures Increasing(Labels(rows + [Row(index, cells)])) && Distinct(Labels(rows + [Row(index, cells)]))
  {
    assert Labels(rows + [Row(index, cells)]) == Labels(rows) + [index];
  }

  /** The next file's row, appended, holds that file's cells. */
  lemma AppendRowsFor(files: seq<File>, rows: seq<Row>, f: File)
    requires RowsFor(files, rows)
    ensures RowsFor(files + [f], rows + [Row(|files|, CellsFor(f))])
  {
    var files' := files + [f];
    assert forall k :: 0 <= k < |rows| ==> files'[rows[k].index] == files[rows[k].index];
  }

  /** A file's row has one cell per table column. */
  lemma CellsForWidth(f: File)
    ensures |CellsFor(f)| == |TableColumns|
  {
  }

  /** A recognised file with a new invoice number appends its record row and its number. */
  lemma StepFirst(files: seq<File>, s: State, f: File)
    requires Summarises(files, s) && Number(f).Some? && Number(f).value !in s.seen
    ensures Summarises(files + [f], Step(s, |files|, f))
    ensures Step(s, |files|, f).seen == s.seen + [Number(f).value]
    ensures Step(s, |files|, f).table.rows == s.table.rows + [Row(|files|, CellsFor(f))]
  {
    FirstTable(files, s, f);
    FirstRow(s.table, |files|, f);
    FirstCovered(files, s, f);
    FirstSeen(files, s, f);
  }

  /** A first occurrence appends one row with the next label, keeping the table's shape and row invariant. */
  lemma FirstTable(files: seq<File>, s: State, f: File)
    requires Summarises(files, s) && Number(f).Some? && Number(f).value !in s.seen
    ensures var t := Step(s, |files|, f).table;
      && WellFormed(t) && t.columns == TableColumns
      && Increasing(Labels(t.rows)) && RowsFor(files + [f], t.rows)
      && Labels(t.rows) == Labels(s.table.rows) + [|files|]
  {
    var i := |files|;
    assert i !in Labels(s.table.rows);
    FirstRow(s.table, i, f);
    AppendRow(files, s.table, f);
  }

  /** After a first occurrence, a file has a row exactly when it is kept. */
  lemma FirstCovered(files: seq<File>, s: State, f: File)
    requires Summarises(files, s) && Number(f).Some? && Number(f).value !in s.seen
    ensures var files', t := files + [f], Step(s, |files|, f).table;
      forall j :: 0 <= j < |files'| ==> (j in Labels(t.rows) <==> Kept(files', j))
  {
    FirstTable(files, s, f);
    FirstIsFirst(files, s, f);
    CoveredAppend(files, f, Labels(s.table.rows));
  }

  /** A new label for the next file, which is kept, keeps "labelled exactly when kept". */
  lemma CoveredAppend(files: seq<File>, f: File, ls: seq<nat>)
    requires forall j :: 0 <= j < |files| ==> (j in ls <==> Kept(files, j))
    requires Kept(files + [f], |files|)
    requires forall k :: 0 <= k < |ls| ==> ls[k] < |files|
    ensures forall j :: 0 <= j < |files| + 1 ==> (j in ls + [|files|] <==> Kept(files + [f], j))
  {
    forall j | 0 <= j < |files| + 1 ensures j in ls + [|files|] <==> Kept(files + [f], j) {
      if j < |files| {
        ExtendKept(files, f, j);
      }
    }
  }

  /** After a first occurrence, the seen-list and the row count still satisfy the invariant. */
  lemma FirstSeen(files: seq<File>, s: State, f: File)
    requires Summarises(files, s) && Number(f).Some? && Number(f).value !in s.seen
    ensures var files', s' := files + [f], Step(s, |files|, f);
      && Distinct(s'.seen)
      && (forall x :: x in s'.seen <==> Recorded(files', x))
      && |s'.table.rows| == Failures(files') + |s'.seen|
      && |s'.table.rows| <= |files'|
  {
    Extend(files, f);
    FirstRow(s.table, |files|, f);
    assert Step(s, |files|, f).seen == s.seen + [Number(f).value];
  }

  /** The row written for a file with a new invoice number: its record, named. */
  lemma FirstRow(t: Table, i: nat, f: File)
    requires WellFormed(t) && t.columns == TableColumns && i !in Labels(t.rows)
    requires !Failed(f)
    ensures WithCell(WithRow(t, i, f.record.value), i, FileNameColumn, Some(f.name)).rows
      == t.rows + [Row(i, CellsFor(f))]
  {
    TableColumnsShape();
    var t1 := WithRow(t, i, f.record.value);
    assert t1.rows == t.rows + [Row(i, Aligned(TableColumns, f.record.value))];
    assert t1.rows[|t.rows|].index == i;
    WithCellExisting(t1, |t.rows|, FileNameColumn, Some(f.name));
  }

  /** A number not in the seen-list was recognised for no earlier file. */
  lemma FirstIsFirst(files: seq<File>, s: State, f: File)
    requires Summarises(files, s) && Number(f).Some? && Number(f).value !in s.seen
    ensures FirstOccurrence(files + [f], |files|)
  {
    var files' := files + [f];
    assert !Recorded(files, Number(f).value);
    forall j | 0 <= j < |files| ensures Number(files'[j]) != Number(f) {
      assert files'[j] == files[j];
    }
  }

  /** A recognised file whose invoice number was seen before changes nothing at all. */
  lemma StepDuplicate(files: seq<File>, s: State, f: File)
    requires Summarises(files, s) && Number(f).Some? && Number(f).value in s.seen
    ensures Step(s, |files|, f) == s
    ensures Summarises(files + [f], s)
  {
    Extend(files, f);
    var files' := files + [f];
    var i := |files|;
    var number := Number(f).value;
    assert !FirstOccurrence(files', i) by {
      assert Recorded(files, number);
      var j :| 0 <= j < i && Number(files[j]) == Some(number);
      assert Number(files'[j]) == Number(files'[i]);
    }
    assert i !in Labels(s.table.rows);
  }

  /** One iteration keeps the summary true of the files seen so far plus one. */
  lemma StepSummarises(files: seq<File>, s: State, f: File)
    requires Summarises(files, s)
    ensures Summarises(files + [f], Step(s, |files|, f))
  {
    if Failed(f) {
      StepFailed(files, s, f);
    } else if Number(f).value in s.seen {
      StepDuplicate(files, s, f);
    } else {
      StepFirst(files, s, f);
    }
  }

  /** The loop's state after any list of files is summarised by it. */
  lemma {:induction false} FoldSummarises(files: seq<File>)
    ensures Summarises(files, Fold(files))
  {
    if |files| == 0 {
      StartSummarises();
    } else {
      var n := |files| - 1;
      var front, last := files[..n], files[n];
      assert front + [last] == files;
      FoldSummarises(front);
      StepSummarises(front, Fold(front), last);
    }
  }

  // ---------------------------------------------------------------------------
  // The loop's promises, read off the summary.

  /**
   * File `i` gets a row exactly when it failed or is the first file with its
   * invoice number; rows are labelled by position in strictly increasing order.
   */
  lemma RowsWritten(files: seq<File>)
    ensures var rows := Fold(files).table.rows;
      && (forall i :: 0 <= i < |files| ==>
            (i in Labels(rows) <==> Failed(files[i]) || FirstOccurrence(files, i)))
      && (forall k :: 0 <= k < |rows| ==> rows[k].index < |files|)
      && (forall a, b :: 0 <= a < b < |rows| ==> rows[a].index < rows[b].index)
  {
    FoldSummarises(files);
  }

  /**
   * The table has one row per failure plus one per distinct invoice number, so
   * no more rows than files; the seen-list has no repeats and holds exactly the
   * invoice numbers of the recognised files.
   */
  lemma RowCount(files: seq<File>)
    ensures var s := Fold(files);
      && |s.table.rows| == Failures(files) + |s.seen|
      && |s.table.rows| <= |files|
      && Distinct(s.seen)
      && (forall x :: x in s.seen <==> exists i :: 0 <= i < |files| && Number(files[i]) == Some(x))
  {
    FoldSummarises(files);
    var s := Fold(files);
    forall x ensures x in s.seen <==> exists i :: 0 <= i < |files| && Number(files[i]) == Some(x) {
      assert Recorded(files, x) <==> exists i :: 0 <= i < |files| && Number(files[i]) == Some(x);
    }
  }

  /** What the batch writes under record column `c` for file `f`: its value, or empty. */
  function Written(f: File, c: string): Cell
  {
    if Failed(f) || c !in f.record.value then None else Some(f.record.value[c])
  }

  /**
   * What a row holds: the file name of the file at its position; for a file
   * that failed, nothing else; under each record column, what the file's
   * record holds there.
   */
  lemma RowContents(files: seq<File>, k: nat)
    requires k < |Fold(files).table.rows|
    ensures var t := Fold(files).table; var i := t.rows[k].index;
      && i < |files|
      && Get(t, k, FileNameColumn) == Some(files[i].name)
      && (Failed(files[i]) ==> forall c :: c != FileNameColumn ==> Get(t, k, c) == None)
      && (forall c :: c in RecordColumns ==> Get(t, k, c) == Written(files[i], c))
  {
    FoldSummarises(files);
    TableColumnsShape();
    var t := Fold(files).table;
    var f := files[t.rows[k].index];
    assert t.rows[k].cells == CellsFor(f);
    if Failed(f) {
      forall c | c != FileNameColumn ensures Get(t, k, c) == None {
        if c in TableColumns {
          var j := IndexOf(TableColumns, c);
          assert TableColumns[j] != FileNameColumn;
        }
      }
    } else {
      forall c | c in RecordColumns ensures Get(t, k, c) == Written(f, c) {
        var j := IndexOf(TableColumns, c);
        assert j != 0;
      }
    }
  }

  /**
   * An upload fails exactly when the service gave no answer or the answer is
   * not one `dict_process` accepts; otherwise its record is the normalised one,
   * so it writes that record's value under every record column.
   */
  lemma OutcomeFails(u: Upload)
    ensures Failed(Outcome(u)) <==> u.response.None? || !Normalisable(u.response.value)
    ensures !Failed(Outcome(u)) ==> forall c :: c in RecordColumns ==>
      c in DictProcess(u.response.value).value &&
      Written(Outcome(u), c) == Some(DictProcess(u.response.value).value[c])
  {
    if u.response.Some? {
      ProcessSucceedsIff(u.response.value);
    }
  }

  /**
   * First occurrence wins: every row holding a record holds the first file
   * with that invoice number, and every recognised invoice number has such a row.
   */
  lemma FirstOccurrenceWins(files: seq<File>, i: nat)
    requires i < |files| && Number(files[i]).Some?
    ensures exists k :: 0 <= k < |Fold(files).table.rows| && HoldsFirstOf(files, Fold(files).table.rows[k].index, i)
  {
    FoldSummarises(files);
    var j := FirstWith(files, i);
    assert Kept(files, j);
    var rows := Fold(files).table.rows;
    var k :| 0 <= k < |rows| && Labels(rows)[k] == j;
  }

  /** File `j` is the first file with the invoice number of file `i`. */
  predicate HoldsFirstOf(files: seq<File>, j: nat, i: nat)
    requires i < |files|
  {
    j <= i && Number(files[j]) == Number(files[i]) && FirstOccurrence(files, j)
  }

  /** The earliest position whose file has the invoice number of file `i`. */
  ghost function FirstWith(files: seq<File>, i: nat): (j: nat)
    requires i < |files| && Number(files[i]).Some?
    ensures j <= i && Number(files[j]) == Number(files[i]) && FirstOccurrence(files, j)
  {
    if forall a :: 0 <= a < i ==> Number(files[a]) != Number(files[i]) then i
    else
      var a :| 0 <= a < i && Number(files[a]) == Number(files[i]);
      FirstWith(files, a)
  }
}
