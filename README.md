# Invoice identification: a verified model of the normaliser, the batch loop and the summary

The tool reads scanned Chinese VAT invoices. A recognition service returns a
field map for each file. The tool then:

- normalises each field map into a fixed 20-column record (`dict_process`);
- folds a batch of files into one table, keeping only the first file with each
  invoice number and giving each failed file a row that holds only its file name
  (the loop in `main`);
- stamps the invoice type onto that table and projects it onto an 8-column
  summary with new column names (`post_process`).

The model has seven modules:

- `Wrappers` (wrappers.dfy): the `Option` and `Result` datatypes.
- `Collections` (collections.dfy): sequences without repeats, first positions,
  and `dict(zip(keys, values))`.
- `Text` (text.dfy): `'\n'.join` and `str.split`, and the round trip between them.
- `Invoice` (invoice.dfy): `dict_process` as total functions.
  - The field map holds text fields and lists of `{'word': …}` entries.
  - Every `KeyError`, `IndexError` and the `ValueError` raised by unpacking
    `zip(*[])` is a `Failure` value.
  - Failures are reported in Python's evaluation order.
- `Frame` (frame.dfy): the part of a pandas DataFrame the tool relies on.
  - The `Table` value supports `loc` row, cell and column writes (a new label or
    column is appended), `reindex` and `rename`.
  - The `DataFrame` class holds those values in fields that its methods update
    in place.
- `Batch` (batch.dfy): the loop of `main`.
  - `Step` and `Fold` form its specification.
  - `ProcessFiles` is a `while` loop over a `DataFrame` and a seen-list, proved
    equal to `Fold`.
  - `Summarises` is the invariant the loop keeps. The public lemmas are read off it.
- `Reshape` (reshape.dfy): `post_process` as a method that updates the table in
  place, plus the summary function and lemmas about its layout.

Each file's recognition result is an input (`Batch.Upload.response`). `None`
stands for an empty response or a failed call. The loop body runs `dict_process`
on it (`Batch.Outcome`). The batch specification (`Step`, `Fold` and the lemmas
about them) works on the outcomes. A record without `发票编号` would raise when
the loop reads the number, so the model treats it as a failure. `dict_process`
never produces such a record (`Invoice.DictProcess`).

A few facts about `app.py` shape the model:

- The record has 20 columns. The table has 21, with `文件名` added.
- A recognised file whose invoice number was already seen writes nothing, not
  even its file name. So the table can have fewer rows than there are files.
- The recognition call is inside the `try`. A failed call therefore becomes a row
  holding only the file name, and the loop goes on. Only the access-token request,
  outside the loop, can abort the run; that request is not part of this model.

## Model

| member | source | states |
|---|---|---|
| Invoice.Lookup | app.py:69-88 | reading a text field succeeds exactly when the key is present, yields its value, and otherwise raises a missing key naming it |
| Invoice.LookupAll | app.py:68-89 | reading the text fields in dict-literal order succeeds exactly when every one is present, and yields each field's value in key order |
| Invoice.Lines | app.py:64-66 | the comprehension over `range(k)` yields `k` tuples, and tuple `i` is the one built from index `i` of the four arrays |
| Invoice.Word | app.py:65-66 | reading `d[key][i]['word']` succeeds exactly when the array exists, is long enough and its entry has a `word`, yields that word, and otherwise raises an error naming `key` |
| Invoice.LineAt | app.py:65-66 | building the tuple for index `i` raises the error of the first of its four reads, left to right, that fails |
| Invoice.LineAtSucceeds | app.py:65-66 | the tuple for index `i` is built exactly when all four commodity arrays have an entry with a `word` at `i`, and it holds those four words |
| Invoice.LinesSucceed | app.py:65-66 | the comprehension raises nothing exactly when every index below `k` yields its tuple |
| Collections.Dict | app.py:128 | a dict built by pairing keys with values has exactly the listed keys (the record literal of lines 68-89 is built the same way) |
| Collections.DictAt | app.py:128 | with distinct keys, each key maps to the value at its own position |
| Invoice.Column | app.py:67 | column `c` of `zip(*commodity)` has one entry per tuple, entry `i` being field `c` of tuple `i` |
| Invoice.Assemble | app.py:68-89 | the record literal has exactly the 20 record columns, the invoice number among them |
| Invoice.AssembleFields | app.py:68-89 | the record literal puts each text value under its own column, and each commodity column is that column of the tuples joined by newlines |
| Invoice.DictProcess | app.py:60-90 | a missing `CommodityName` raises a missing key; an empty one raises the unpacking error; a success has exactly the 20 record columns, the invoice number among them |
| Invoice.ProcessSucceedsIff | app.py:64-89 | `dict_process` succeeds if and only if `CommodityName` is present and non-empty, all four commodity arrays (`CommodityName` included) have an entry with a `word` at each index below its length, and all 16 text fields are present |
| Invoice.ScalarPassthrough | app.py:68-89 | each of the 16 text columns of a successful record equals its source field unchanged (for example `发票编号` is `InvoiceNumConfirm`, `价税合计` is `AmountInFiguers`) |
| Invoice.CommodityJoin | app.py:64-80 | each of the four commodity columns is the first `n` words of its array joined by newlines in index order, where `n` is the length of `CommodityName` |
| Invoice.CommodityLines | app.py:77-80 | when no word holds a newline, splitting a commodity column on newlines gives back its `n` words, so line `k` is entry `k`'s word, and the column holds `n - 1` newlines |
| Invoice.RecordShape | app.py:68-90 | a successful record has exactly 20 keys, and `文件名` is not one of them |
| Invoice.RecordColumnsDistinct | app.py:68-89 | the 20 record columns are distinct, and `文件名` is not among them |
| Invoice.LinesTruncated | app.py:64-66 | cutting every array to the length of `CommodityName` leaves the comprehension's outcome unchanged |
| Invoice.ExtraEntriesIgnored | app.py:64-66 | entries past index `n - 1` of any commodity array are never read: removing them changes neither the record nor the error |
| Text.Join | app.py:77-80 | `'\n'.join` of no words is the empty text; otherwise the text starts with the first word |
| Text.SplitJoin | app.py:77-80 | `'\n'.join` is inverted by splitting on newlines when no word contains a newline |
| Text.JoinSeparatorCount | app.py:77-80 | joining `m` newline-free words puts exactly `m - 1` newlines in the text |
| Frame.WithRow | app.py:109 | `df.loc[i] = record` keeps the columns and the other rows. An existing label is overwritten in place; a new label is appended. The row holds the record's value under each matching column and is empty elsewhere. Unique labels stay unique |
| Frame.WithCell | app.py:110 | `df.loc[i, col] = v` keeps the columns and the other rows. A new label is appended as a row that is empty except in `col`. Unique labels stay unique |
| Frame.WithCellExisting | app.py:110 | writing a cell of an existing row changes that one cell and nothing else |
| Frame.WithColumn | app.py:126 | `df.loc[:, col] = v` gives every row `v` under `col` and leaves every other cell and every label unchanged. A new column is appended after the others |
| Frame.Reindex | app.py:127 | `reindex(columns=cols)` gives the same rows, in the same order, under exactly `cols`. Each cell comes from the column of that name, and is empty where there is none |
| Frame.Rename | app.py:128-129 | `rename(columns=m)` renames each column found in `m` and keeps the others and every cell |
| Frame.DataFrame.constructor | app.py:98-101 | a new frame has the given columns and no rows |
| Frame.DataFrame.SetRow | app.py:109 | writes a row in place; the new value is `WithRow` of the old one, and the frame stays well formed |
| Frame.DataFrame.SetCell | app.py:110 | writes a cell in place; the new value is `WithCell` of the old one, and the frame stays well formed |
| Frame.DataFrame.SetColumn | app.py:126 | writes a column in place; the new value is `WithColumn` of the old one, and the frame stays well formed |
| Batch.TableColumnsShape | app.py:98-101 | the table has 21 distinct columns: `文件名` first, then every record column |
| Batch.Number | app.py:107 | a file has an invoice number exactly when it has a record holding `发票编号`, and the number is that value; otherwise reading it would raise |
| Batch.Outcome | app.py:105 | a file has a record exactly when the service answered and `dict_process` accepted the answer, and that record is what `dict_process` returned |
| Batch.Step | app.py:105-113 | one iteration keeps the table's columns and every row's width |
| Batch.Fold | app.py:104-113 | the table after any list of files has the 21 table columns and rows of that width |
| Batch.Visit | app.py:105-113 | the loop body updates the frame in place. The frame stays well formed, and the new frame and seen-list are one `Step` from the old ones |
| Batch.ProcessFiles | app.py:94-114 | the loop builds a fresh, well-formed frame equal to `Fold` over the uploads' outcomes |
| Batch.StartSummarises | app.py:98-103 | the empty table and the empty seen-list satisfy the loop invariant |
| Batch.StepFailed | app.py:111-113 | a failed file appends exactly one row, labelled with its position and holding only its file name; the seen-list is unchanged; the loop invariant is kept |
| Batch.FailedRow | app.py:111-112 | writing the file name at a new label appends a row that is empty except for the name |
| Batch.FirstRow | app.py:109-110 | writing a record and then the file name at a new label appends one row: the record aligned on the columns, with the name |
| Batch.StepFirst | app.py:107-110 | a recognised file with a new invoice number appends exactly one row (its record aligned on the columns, with its file name) and appends its number to the seen-list; the loop invariant is kept |
| Batch.FirstIsFirst | app.py:107 | a number missing from the seen-list belongs to no earlier file |
| Batch.StepDuplicate | app.py:107-110 | a recognised file whose invoice number was already seen leaves the table and the seen-list exactly as they were |
| Batch.StepSummarises | app.py:104-113 | every iteration preserves the loop invariant |
| Batch.FoldSummarises | app.py:104-113 | the invariant holds after any list of files |
| Batch.RowsWritten | app.py:104-113 | file `i` has a row exactly when it failed or is the first file with its invoice number; labels are input positions, in strictly increasing order |
| Batch.RowCount | app.py:104-113 | rows = failures + distinct invoice numbers, at most the number of files; the seen-list has no repeats and holds exactly the recognised invoice numbers |
| Batch.RowContents | app.py:107-112 | every row holds the file name of the file at its label. A failed file's row is empty elsewhere; under every record column a row holds what that file's record holds there |
| Batch.OutcomeFails | app.py:105-113 | an upload fails exactly when the service gave no answer or `dict_process` rejects the answer; otherwise it writes the normalised record's value under every record column |
| Batch.FirstOccurrenceWins | app.py:107-110 | every recognised invoice number has a row, and that row belongs to the earliest file with that number |
| Batch.FirstWith | app.py:107-108 | every recognised file has an earliest file at or before it with the same invoice number |
| Reshape.ColumnsShape | app.py:124-125 | the two column lists have 8 distinct names each, and the fourth source column is `开票类型` |
| Reshape.Renaming | app.py:128 | the renaming built from the two lists maps each source column to the summary name at the same position |
| Reshape.ReindexRename | app.py:127-129 | reindexing on the 8 source columns and then renaming them gives the summary: the same rows with the same labels, where column `j` holds the cell under source column `j` |
| Reshape.PostProcess | app.py:123-130 | the frame itself gains `开票类型 = 增值税专用发票` in every row (a new column is appended), and the returned table is the summary of the stamped frame |
| Reshape.SummaryLayout | app.py:124-130 | the summary has exactly the 8 summary columns, in order, and the same rows with the same labels. Its type column holds `增值税专用发票`; each other column `j` holds the stamped table's cell under source column `j`, empty if absent |
| Reshape.SourceInRecord | app.py:124 | every source column but `开票类型` is a record column other than `文件名` |
| Reshape.BatchSummary | app.py:104-130 | row `k` of the summary of the batch table belongs to the file at its label and holds the invoice type. Under each other column it holds what the batch wrote for that file: empty for a failed file, the record's value otherwise |

## Left out

- The access-token and recognition HTTP calls (`get_access_token`, `ocr_response`): network I/O. Each file's outcome is an input, and `None` covers both an empty response and a raised exception.
- Reading files and base64-encoding them (`get_file_content_as_base64`, the encoding inside `ocr_response`): file I/O and a library encoder.
- `download_df`: Excel serialisation with gbk encoding in a foreign library.
- The Streamlit page, its widgets and the `@st.cache` memoisation of `main`: a UI framework.
- The hard-coded credentials and the timestamped output file name: configuration and the clock.
- Batch.ProcessFiles: does not model the `float64` cast of the five money columns. Cells are text or empty, so NaN and number coercion are not modelled, and neither is an exception the cast could raise inside the `try`. Such an exception would leave the number in the seen-list while the row holds only the file name.
- Invoice.DictProcess: a field of the wrong value type (a list where text is expected, or the reverse) is not modelled; the field map separates text fields from lists by type.
- Reshape.PostProcess: models `loc[:, col] = v` on a table without rows as giving an empty column. Old pandas versions may raise there instead.
- Reshape.PostProcess: takes only frames with distinct column names and distinct row labels (`DataFrame.Valid`); pandas would also run it on repeated row labels. Every frame the batch loop builds has distinct labels (`Batch.RowsWritten`).
