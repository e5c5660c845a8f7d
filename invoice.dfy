/**
 * The record normaliser: one recognised VAT invoice (the field map returned by
 * the recognition service) becomes a record of 20 Chinese-named columns. Scalar
 * fields pass through; the four parallel commodity arrays are zipped index by
 * index and each column is joined with newlines. Every Python exception the
 * normaliser can raise is an explicit `Failure`.
 */
module Invoice {
  import opened Wrappers
  import Text
  import opened Collections

  /** One element of a commodity array, e.g. {"row": "1", "word": "..."}. */
  type Entry = map<string, string>

  /**
   * The recognition result, split by the type of its values: text fields and
   * commodity arrays. A key in neither map is missing from the result.
   */
  datatype FieldMap = FieldMap(scalars: map<string, string>, lists: map<string, seq<Entry>>)

  /** The normalised record: column name to cell text. */
  type Record = map<string, string>

  /** Why normalisation raised. */
  datatype Error =
    | MissingKey(key: string)                  // KeyError on the field map
    | IndexOutOfRange(key: string, index: nat) // IndexError: a commodity array is too short
    | MissingWord(key: string, index: nat)     // KeyError: an entry has no "word"
    | NothingToUnpack                          // ValueError: four names unpacked from zip() of no lines

  const NameKey := "CommodityName"
  const AmountKey := "CommodityAmount"
  const TaxRateKey := "CommodityTaxRate"
  const TaxKey := "CommodityTax"
  const WordKey := "word"

  /** The commodity arrays, in the order each line reads them. */
  const CommodityKeys: seq<string> := [NameKey, AmountKey, TaxRateKey, TaxKey]

  /** All 20 record columns, in the order of the record literal. */
  const RecordColumns: seq<string> := [
    "发票代码", "发票编号", "机器编号", "开票日期",
    "购买方 名称", "购买方 纳税人识别号", "购买方 地址、电话", "购买方 开户行及账号",
    "货物或应税劳务、服务名称", "金额", "税率", "税额",
    "合计金额", "合计税额", "价税合计",
    "销售方 名称", "销售方 纳税人识别号", "销售方 地址、电话", "销售方 开户行及账号", "备注"]

  /** The joined columns, CommodityColumns[c] made from CommodityKeys[c]. */
  const CommodityColumns: seq<string> := RecordColumns[8..12]

  /** The text fields read, in the order the record literal reads them. */
  const ScalarKeys: seq<string> := [
    "InvoiceCodeConfirm", "InvoiceNumConfirm", "MachineCode", "InvoiceDate",
    "PurchaserName", "PurchaserRegisterNum", "PurchaserAddress", "PurchaserBank",
    "TotalAmount", "TotalTax", "AmountInFiguers",
    "SellerName", "SellerRegisterNum", "SellerAddress", "SellerBank", "Remarks"]

  /** The passthrough columns, ScalarColumns[j] copied from ScalarKeys[j]. */
  const ScalarColumns: seq<string> := RecordColumns[..8] + RecordColumns[12..]

  /** The column that the batch adds beside the record. */
  const FileNameColumn := "文件名"

  /** The column that identifies an invoice. */
  const InvoiceNumberColumn := "发票编号"

  /** One commodity line: the four words at one index. */
  datatype Line = Line(name: string, amount: string, taxRate: string, tax: string)

  /** Field `c` of a line, in the order of CommodityKeys. */
  function Field(l: Line, c: nat): string
    requires c < 4
  {
    match c
    case 0 => l.name
    case 1 => l.amount
    case 2 => l.taxRate
    case _ => l.tax
  }

  /** `d[key]` for a text field. */
  function Lookup(scalars: map<string, string>, key: string): (r: Result<string, Error>)
    ensures r.Success? <==> key in scalars
    ensures r.Success? ==> r.value == scalars[key]
    ensures r.Failure? ==> r.error == MissingKey(key)
  {
    if key in scalars then Success(scalars[key]) else Failure(MissingKey(key))
  }

  /** The text fields `keys`, read in order: the first missing one raises. */
  function LookupAll(scalars: map<string, string>, keys: seq<string>): (r: Result<seq<string>, Error>)
    ensures r.Success? <==> forall j :: 0 <= j < |keys| ==> keys[j] in scalars
    ensures r.Success? ==> |r.value| == |keys|
    ensures r.Success? ==> forall j :: 0 <= j < |keys| ==> r.value[j] == scalars[keys[j]]
  {
    if |keys| == 0 then Success([])
    else
      var first :- Lookup(scalars, keys[0]);
      var rest :- LookupAll(scalars, keys[1..]);
      Success([first] + rest)
  }

  /** `d[key][i]['word']`. */
  function Word(d: FieldMap, key: string, i: nat): (r: Result<string, Error>)
    ensures r.Success? <==> WordAt(d, key, i)
    ensures r.Success? ==> r.value == d.lists[key][i][WordKey]
    ensures r.Failure? ==> !r.error.NothingToUnpack? && r.error.key == key
  {
    if key !in d.lists then Failure(MissingKey(key))
    else if i >= |d.lists[key]| then Failure(IndexOutOfRange(key, i))
    else if WordKey !in d.lists[key][i] then Failure(MissingWord(key, i))
    else Success(d.lists[key][i][WordKey])
  }

  /** The tuple built for index `i`, its four words read left to right. */
  function LineAt(d: FieldMap, i: nat): (r: Result<Line, Error>)
    ensures r.Failure? ==> exists c :: 0 <= c < 4 && Word(d, CommodityKeys[c], i) == Failure(r.error) &&
                                       forall b :: 0 <= b < c ==> Word(d, CommodityKeys[b], i).Success?
  {
    assert CommodityKeys[0] == NameKey && CommodityKeys[1] == AmountKey;
    assert CommodityKeys[2] == TaxRateKey && CommodityKeys[3] == TaxKey;
    var name :- Word(d, NameKey, i);
    var amount :- Word(d, AmountKey, i);
    var taxRate :- Word(d, TaxRateKey, i);
    var tax :- Word(d, TaxKey, i);
    Success(Line(name, amount, taxRate, tax))
  }

  /** The list comprehension over `range(k)`: the first failing index raises. */
  function Lines(d: FieldMap, k: nat): (r: Result<seq<Line>, Error>)
    ensures r.Success? ==> |r.value| == k
    ensures r.Success? ==> forall i :: 0 <= i < k ==> LineAt(d, i) == Success(r.value[i])
  {
    if k == 0 then Success([])
    else
      var front :- Lines(d, k - 1);
      var last :- LineAt(d, k - 1);
      Success(front + [last])
  }

  /** Column `c` of `zip(*lines)`. */
  function Column(lines: seq<Line>, c: nat): (col: seq<string>)
    requires c < 4
    ensures |col| == |lines|
    ensures forall i :: 0 <= i < |lines| ==> col[i] == Field(lines[i], c)
  {
    seq(|lines|, i requires 0 <= i < |lines| => Field(lines[i], c))
  }

  lemma RecordColumnsDistinct()
    ensures |RecordColumns| == 20
    ensures FileNameColumn !in RecordColumns
    ensures Distinct(RecordColumns)
  {
    var r := RecordColumns;
    forall a, b | 0 <= a < b < |r| ensures r[a] != r[b] {
      Differ(r[a], r[b]);
    }
  }

  /** Two names differing in the first or one of the last two characters are different. */
  lemma Differ(x: string, y: string)
    requires |x| >= 2 && |y| >= 2
    requires x[0] != y[0] || x[|x| - 2] != y[|y| - 2] || x[|x| - 1] != y[|y| - 1]
    ensures x != y
  {
  }

  /**
   * The record literal: the eight buyer-side text values, the four joined
   * commodity columns, then the eight totals and seller-side text values.
   */
  function Assemble(v: seq<string>, lines: seq<Line>): (r: Record)
    requires |v| == |ScalarKeys|
    ensures r.Keys == set c | c in RecordColumns
    ensures InvoiceNumberColumn in r
  {
    assert RecordColumns[1] == InvoiceNumberColumn;
    Dict(RecordColumns, v[..8] + [
      Text.Join('\n', Column(lines, 0)),
      Text.Join('\n', Column(lines, 1)),
      Text.Join('\n', Column(lines, 2)),
      Text.Join('\n', Column(lines, 3))] + v[8..])
  }

  /** Where the record literal puts each value. */
  lemma AssembleFields(v: seq<string>, lines: seq<Line>)
    requires |v| == |ScalarKeys|
    ensures forall j :: 0 <= j < |ScalarColumns| ==>
      ScalarColumns[j] in Assemble(v, lines) && Assemble(v, lines)[ScalarColumns[j]] == v[j]
    ensures forall c :: 0 <= c < 4 ==>
      CommodityColumns[c] in Assemble(v, lines) && Assemble(v, lines)[CommodityColumns[c]] == Text.Join('\n', Column(lines, c))
  {
    var joined := seq(4, c requires 0 <= c < 4 => Text.Join('\n', Column(lines, c)));
    assert joined == [
      Text.Join('\n', Column(lines, 0)),
      Text.Join('\n', Column(lines, 1)),
      Text.Join('\n', Column(lines, 2)),
      Text.Join('\n', Column(lines, 3))];
    LiteralFields(v, joined);
  }

  /** The dict literal over the record columns, with any four commodity texts. */
  lemma LiteralFields(v: seq<string>, joined: seq<string>)
    requires |v| == |ScalarKeys| && |joined| == 4
    ensures var r := Dict(RecordColumns, v[..8] + joined + v[8..]);
      && (forall j :: 0 <= j < |ScalarColumns| ==> ScalarColumns[j] in r && r[ScalarColumns[j]] == v[j])
      && (forall c :: 0 <= c < 4 ==> CommodityColumns[c] in r && r[CommodityColumns[c]] == joined[c])
  {
    var values := v[..8] + joined + v[8..];
    RecordColumnsDistinct();
    forall j | 0 <= j < |ScalarColumns|
      ensures ScalarColumns[j] in Dict(RecordColumns, values) && Dict(RecordColumns, values)[ScalarColumns[j]] == v[j]
    {
      var at := if j < 8 then j else j + 4;
      assert RecordColumns[at] == ScalarColumns[j] && values[at] == v[j];
      DictAt(RecordColumns, values, at);
    }
    forall c | 0 <= c < 4
      ensures CommodityColumns[c] in Dict(RecordColumns, values) && Dict(RecordColumns, values)[CommodityColumns[c]] == joined[c]
    {
      assert RecordColumns[8 + c] == CommodityColumns[c] && values[8 + c] == joined[c];
      DictAt(RecordColumns, values, 8 + c);
    }
  }

  /** `dict_process(d)`. */
  function DictProcess(d: FieldMap): (r: Result<Record, Error>)
    ensures NameKey !in d.lists ==> r == Failure(MissingKey(NameKey))
    ensures NameKey in d.lists && |d.lists[NameKey]| == 0 ==> r == Failure(NothingToUnpack)
    ensures r.Success? ==> r.value.Keys == set c | c in RecordColumns
    ensures r.Success? ==> InvoiceNumberColumn in r.value
  {
    if NameKey !in d.lists then Failure(MissingKey(NameKey))
    else
      var n := |d.lists[NameKey]|;
      var lines :- Lines(d, n);
      if n == 0 then Failure(NothingToUnpack)
      else
        var v :- LookupAll(d.scalars, ScalarKeys);
        Success(Assemble(v, lines))
  }

  // ---------------------------------------------------------------------------
  // When the normaliser succeeds, and what the record then holds.

  /** `d[key][i]['word']` exists. */
  predicate WordAt(d: FieldMap, key: string, i: nat) {
    key in d.lists && i < |d.lists[key]| && WordKey in d.lists[key][i]
  }

  /** The first `n` entries of `d[key]` exist and carry a word. */
  predicate HasWords(d: FieldMap, key: string, n: nat) {
    key in d.lists && |d.lists[key]| >= n && forall i :: 0 <= i < n ==> WordKey in d.lists[key][i]
  }

  /** The input shape under which `dict_process` raises nothing. */
  predicate Normalisable(d: FieldMap) {
    && NameKey in d.lists && |d.lists[NameKey]| >= 1
    && (forall c :: 0 <= c < 4 ==> HasWords(d, CommodityKeys[c], |d.lists[NameKey]|))
    && (forall j :: 0 <= j < |ScalarKeys| ==> ScalarKeys[j] in d.scalars)
  }

  /** The words of the first `n` entries of `d[key]`, in index order. */
  function Words(d: FieldMap, key: string, n: nat): (ws: seq<string>)
    requires HasWords(d, key, n)
    ensures |ws| == n
  {
    seq(n, i requires 0 <= i < n => d.lists[key][i][WordKey])
  }

  /** Line `i` is built exactly when all four arrays have a word at `i`, and holds those words. */
  lemma LineAtSucceeds(d: FieldMap, i: nat)
    ensures LineAt(d, i).Success? <==> forall c :: 0 <= c < 4 ==> WordAt(d, CommodityKeys[c], i)
    ensures LineAt(d, i).Success? ==>
      forall c :: 0 <= c < 4 ==> Field(LineAt(d, i).value, c) == d.lists[CommodityKeys[c]][i][WordKey]
  {
    assert CommodityKeys[0] == NameKey && CommodityKeys[1] == AmountKey;
    assert CommodityKeys[2] == TaxRateKey && CommodityKeys[3] == TaxKey;
  }

  /** The comprehension over `range(k)` succeeds exactly when every one of its lines does. */
  lemma {:induction false} LinesSucceed(d: FieldMap, k: nat)
    ensures Lines(d, k).Success? <==> forall i :: 0 <= i < k ==> LineAt(d, i).Success?
  {
    if k > 0 {
      LinesSucceed(d, k - 1);
    }
  }

  /**
   * `dict_process` succeeds exactly when CommodityName is present and non-empty,
   * the other three arrays have a word at each of its indexes, and all sixteen
   * text fields are present.
   */
  lemma ProcessSucceedsIff(d: FieldMap)
    ensures DictProcess(d).Success? <==> Normalisable(d)
  {
    if NameKey in d.lists {
      var n := |d.lists[NameKey]|;
      LinesSucceed(d, n);
      if Lines(d, n).Success? && n > 0 {
        forall c | 0 <= c < 4
          ensures HasWords(d, CommodityKeys[c], n)
        {
          forall i | 0 <= i < n ensures WordKey in d.lists[CommodityKeys[c]][i] {
            assert LineAt(d, i).Success?;
            LineAtSucceeds(d, i);
          }
          assert WordAt(d, CommodityKeys[c], n - 1);
        }
      }
      if forall c :: 0 <= c < 4 ==> HasWords(d, CommodityKeys[c], n) {
        forall i | 0 <= i < n ensures LineAt(d, i).Success? {
          LineAtSucceeds(d, i);
        }
      }
    }
  }

  /** On a well-formed field map the normaliser reads every field and builds the record literal. */
  lemma ProcessAssembles(d: FieldMap)
    requires Normalisable(d)
    ensures Lines(d, |d.lists[NameKey]|).Success? && LookupAll(d.scalars, ScalarKeys).Success?
    ensures DictProcess(d) ==
      Success(Assemble(LookupAll(d.scalars, ScalarKeys).value, Lines(d, |d.lists[NameKey]|).value))
  {
    ProcessSucceedsIff(d);
  }

  /** A record made from a well-formed field map copies each text field unchanged into its column. */
  lemma ScalarPassthrough(d: FieldMap)
    requires Normalisable(d)
    ensures DictProcess(d).Success?
    ensures forall j :: 0 <= j < |ScalarColumns| ==>
      ScalarColumns[j] in DictProcess(d).value && ScalarKeys[j] in d.scalars &&
      DictProcess(d).value[ScalarColumns[j]] == d.scalars[ScalarKeys[j]]
  {
    ProcessAssembles(d);
    AssembleFields(LookupAll(d.scalars, ScalarKeys).value, Lines(d, |d.lists[NameKey]|).value);
  }

  /**
   * In a record made from a well-formed field map, each commodity column is the
   * words of its array joined by newlines in index order; entries past the
   * length of CommodityName play no part.
   */
  lemma CommodityJoin(d: FieldMap)
    requires Normalisable(d)
    ensures DictProcess(d).Success?
    ensures forall c :: 0 <= c < 4 ==>
      CommodityColumns[c] in DictProcess(d).value &&
      DictProcess(d).value[CommodityColumns[c]] == Text.Join('\n', Words(d, CommodityKeys[c], |d.lists[NameKey]|))
  {
    ProcessAssembles(d);
    var n := |d.lists[NameKey]|;
    var lines := Lines(d, n).value;
    AssembleFields(LookupAll(d.scalars, ScalarKeys).value, lines);
    forall c | 0 <= c < 4 ensures Column(lines, c) == Words(d, CommodityKeys[c], n) {
      LinesColumn(d, c);
    }
  }

  /** Column `c` of the tuples is the words of commodity array `c`, in index order. */
  lemma LinesColumn(d: FieldMap, c: nat)
    requires Normalisable(d) && c < 4
    requires Lines(d, |d.lists[NameKey]|).Success?
    ensures Column(Lines(d, |d.lists[NameKey]|).value, c) == Words(d, CommodityKeys[c], |d.lists[NameKey]|)
  {
    var n := |d.lists[NameKey]|;
    var lines := Lines(d, n).value;
    forall i | 0 <= i < n ensures Column(lines, c)[i] == Words(d, CommodityKeys[c], n)[i] {
      LineAtSucceeds(d, i);
    }
  }

  /** A successful record has exactly the 20 record columns, and no file-name column. */
  lemma RecordShape(d: FieldMap)
    requires DictProcess(d).Success?
    ensures |DictProcess(d).value.Keys| == 20
    ensures FileNameColumn !in DictProcess(d).value
  {
    RecordColumnsDistinct();
    DistinctCard(RecordColumns);
  }

  /**
   * Line `k` of a commodity column is entry `k`'s word: when no word contains a
   * newline, splitting the column on newlines gives back the `n` words in index
   * order, and the column holds exactly `n - 1` newlines.
   */
  lemma CommodityLines(d: FieldMap, c: nat)
    requires Normalisable(d) && c < 4
    requires forall i :: 0 <= i < |d.lists[NameKey]| ==> Text.Free(d.lists[CommodityKeys[c]][i][WordKey], '\n')
    ensures DictProcess(d).Success?
    ensures Text.Split(DictProcess(d).value[CommodityColumns[c]], '\n') == Words(d, CommodityKeys[c], |d.lists[NameKey]|)
    ensures Text.Count(DictProcess(d).value[CommodityColumns[c]], '\n') == |d.lists[NameKey]| - 1
  {
    CommodityJoin(d);
    var ws := Words(d, CommodityKeys[c], |d.lists[NameKey]|);
    Text.SplitJoin('\n', ws);
    Text.JoinSeparatorCount('\n', ws);
  }

  /** `a[:n]`. */
  function Prefix(a: seq<Entry>, n: nat): seq<Entry>
  {
    if |a| <= n then a else a[..n]
  }

  /** `d` with every array cut to the length of CommodityName. */
  function Truncated(d: FieldMap): FieldMap
    requires NameKey in d.lists
  {
    var n := |d.lists[NameKey]|;
    d.(lists := map key | key in d.lists :: Prefix(d.lists[key], n))
  }

  /** Cutting every array to the length of `CommodityName` does not change the first `k` tuples or the error. */
  lemma {:induction false} LinesTruncated(d: FieldMap, k: nat)
    requires NameKey in d.lists && k <= |d.lists[NameKey]|
    ensures Lines(Truncated(d), k) == Lines(d, k)
  {
    if k > 0 {
      LinesTruncated(d, k - 1);
      WordTruncated(d, NameKey, k - 1);
      WordTruncated(d, AmountKey, k - 1);
      WordTruncated(d, TaxRateKey, k - 1);
      WordTruncated(d, TaxKey, k - 1);
    }
  }

  /** A word below the length of CommodityName reads the same after truncation. */
  lemma WordTruncated(d: FieldMap, key: string, i: nat)
    requires NameKey in d.lists && i < |d.lists[NameKey]|
    ensures Word(Truncated(d), key, i) == Word(d, key, i)
  {
    var t := Truncated(d);
    if key in d.lists {
      assert t.lists[key] == Prefix(d.lists[key], |d.lists[NameKey]|);
    }
  }

  /**
   * Entries past index `n - 1` of any array, `n` the length of CommodityName,
   * are never read: cutting them off changes neither the record nor the error.
   */
  lemma ExtraEntriesIgnored(d: FieldMap)
    requires NameKey in d.lists
    ensures DictProcess(Truncated(d)) == DictProcess(d)
  {
    var n := |d.lists[NameKey]|;
    assert Truncated(d).lists[NameKey] == d.lists[NameKey];
    assert Truncated(d).scalars == d.scalars;
    LinesTruncated(d, n);
  }
}
