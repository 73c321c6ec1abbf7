/** Encoding bars as a CSV package and decoding it against its manifest
    (quant-worker/dataset_sync/codec.py). */
module Package {
  import opened Prelude
  import Sorting
  import opened Csv
  import opened Codec

  const MAX_DATASET_ROWS := 250000

  const CSV_FIELDS := ["timestamp", "open", "high", "low", "close", "volume", "source"]

  datatype Row = Row(at: Moment, open: real, high: real, low: real, close: real, volume: Option<real>, source: string)

  datatype Entry = Entry(asset: string, timeframe: string, row: Row)

  datatype SyncError =
    | NoBars | TooManyRows | NotDaily | SeveralAssets
    | PackageMismatch | BadHeader | BadTimestamp | NotIncreasing | BadNumber | BadSourceOrVolume | BadOhlc
    | CountMismatch | CoverageMismatch | ChecksumMismatch

  /** A digest holds what its checksums summarise: the asset's rows and the package text. */
  datatype Digest = Digest(rowCount: nat, coverageStart: Moment, coverageEnd: Moment, asset: string, rows: seq<Row>, text: string)

  // ---------------------------------------------------------------- time order

  predicate Sorted(rows: seq<Row>) {
    forall i, j | 0 <= i < j < |rows| :: rows[i].at.Ordinal() <= rows[j].at.Ordinal()
  }

  predicate StrictlyIncreasing(rows: seq<Row>) {
    forall i, j | 0 <= i < j < |rows| :: rows[i].at.Ordinal() < rows[j].at.Ordinal()
  }

  predicate NoLater(a: Row, b: Row) {
    a.at.Ordinal() <= b.at.Ordinal()
  }

  function Rows(entries: seq<Entry>): (r: seq<Row>)
    ensures |r| == |entries| && forall i :: 0 <= i < |r| ==> r[i] == entries[i].row
  {
    seq(|entries|, i requires 0 <= i < |entries| => entries[i].row)
  }

  /** A stable sort by timestamp. */
  function Normalized(entries: seq<Entry>): (r: seq<Row>)
    ensures |r| == |entries|
  {
    Sorting.Sort(NoLater, Rows(entries))
  }

  /** Normalizing sorts the rows by time and keeps all of them. */
  lemma NormalizedSorts(entries: seq<Entry>)
    ensures Sorted(Normalized(entries)) && multiset(Normalized(entries)) == multiset(Rows(entries))
  {
    hide DateTime.Ordinal;
    Sorting.SortSorts(NoLater, Rows(entries));
  }

  // ---------------------------------------------------------------- encoding

  function Fields(row: Row): (r: seq<string>)
    ensures |r| == 7 && r[6] == row.source
  {
    [PrintTimestamp(row.at), PrintDecimal(row.open, 8), PrintDecimal(row.high, 8), PrintDecimal(row.low, 8),
     PrintDecimal(row.close, 8), if row.volume.None? then "" else PrintDecimal(row.volume.value, 4), row.source]
  }

  function FieldRows(rows: seq<Row>): (r: seq<seq<string>>)
    ensures |r| == |rows| && forall i :: 0 <= i < |r| ==> r[i] == Fields(rows[i])
  {
    seq(|rows|, i requires 0 <= i < |rows| => Fields(rows[i]))
  }

  function PackageText(d: Dialect, rows: seq<Row>): string {
    Lines(d, [CSV_FIELDS] + FieldRows(rows))
  }

  function EncodeOf(d: Dialect, entries: seq<Entry>): Result<Digest, SyncError> {
    var rows := Normalized(entries);
    if rows == [] then Err(NoBars)
    else if |rows| > MAX_DATASET_ROWS then Err(TooManyRows)
    else if exists i | 0 <= i < |entries| :: entries[i].timeframe != "1d" then Err(NotDaily)
    else if exists i | 0 <= i < |entries| :: entries[i].asset != entries[0].asset then Err(SeveralAssets)
    else Ok(Digest(|rows|, rows[0].at, rows[|rows| - 1].at, entries[0].asset, rows, PackageText(d, rows)))
  }

  /** Writes the package line by line. */
  method WritePackage(d: Dialect, rows: seq<Row>) returns (text: string)
    ensures text == PackageText(d, rows)
  {
    hide Fields, Line;
    ghost var all := [CSV_FIELDS] + FieldRows(rows);
    text := Line(d, CSV_FIELDS);
    FirstLine(d, all);
    for i := 0 to |rows|
      invariant text == Lines(d, all[..i + 1])
    {
      assert all[..i + 2][..i + 1] == all[..i + 1];
      text := text + Line(d, Fields(rows[i]));
    }
    assert all[..|rows| + 1] == all;
  }

  lemma FirstLine(d: Dialect, all: seq<seq<string>>)
    requires all != []
    ensures Lines(d, all[..1]) == Line(d, all[0])
  {
    hide Line;
    assert all[..1][..0] == [] && Lines(d, []) == "";
    assert "" + Line(d, all[0]) == Line(d, all[0]);
  }

  method EncodeDataset(d: Dialect, entries: seq<Entry>) returns (r: Result<Digest, SyncError>)
    ensures r == EncodeOf(d, entries)
  {
    hide PackageText, Normalized;
    var rows := Normalized(entries);
    if rows == [] {
      return Err(NoBars);
    }
    if |rows| > MAX_DATASET_ROWS {
      return Err(TooManyRows);
    }
    if exists i | 0 <= i < |entries| :: entries[i].timeframe != "1d" {
      return Err(NotDaily);
    }
    if exists i | 0 <= i < |entries| :: entries[i].asset != entries[0].asset {
      return Err(SeveralAssets);
    }
    var text := WritePackage(d, rows);
    r := Ok(Digest(|rows|, rows[0].at, rows[|rows| - 1].at, entries[0].asset, rows, text));
  }

  // ---------------------------------------------------------------- decoding

  predicate IsSpace(c: char) {
    var n := c as int;
    || 9 <= n <= 13 || 28 <= n <= 32 || n == 0x85 || n == 0xa0 || n == 0x1680 || 0x2000 <= n <= 0x200a
    || n == 0x2028 || n == 0x2029 || n == 0x202f || n == 0x205f || n == 0x3000
  }

  /** The text without surrounding white space. */
  function Strip(s: string): (r: string)
    ensures |r| <= |s|
  {
    if s == "" then ""
    else if IsSpace(s[0]) then Strip(s[1..])
    else if IsSpace(s[|s| - 1]) then Strip(s[..|s| - 1])
    else s
  }

  /** Stripping removes white space at both ends and nothing else, and leaves none there. */
  lemma {:induction false} StripTrims(s: string) returns (front: string, back: string)
    ensures s == front + Strip(s) + back
    ensures (forall i :: 0 <= i < |front| ==> IsSpace(front[i])) && forall i :: 0 <= i < |back| ==> IsSpace(back[i])
    ensures Strip(s) != "" ==> !IsSpace(Strip(s)[0]) && !IsSpace(Strip(s)[|Strip(s)| - 1])
  {
    hide IsSpace;
    front, back := "", "";
    if s != "" && IsSpace(s[0]) {
      front, back := StripTrims(s[1..]);
      front := [s[0]] + front;
    } else if s != "" && IsSpace(s[|s| - 1]) {
      front, back := StripTrims(s[..|s| - 1]);
      back := back + [s[|s| - 1]];
    }
  }

  /** A field a record lacks reads as the text of Python's None. */
  function Field(record: seq<string>, i: nat): string {
    if i < |record| then record[i] else "None"
  }

  /** The checks on a row's values. */
  function Checked(row: Row): Result<Row, SyncError> {
    if row.source == "" || (row.volume.Some? && row.volume.value < 0.0) then Err(BadSourceOrVolume)
    else if row.low > Min(row.open, row.close) || row.high < Max(row.open, row.close) || row.low > row.high then Err(BadOhlc)
    else Ok(row)
  }

  function DecodeRecord(record: seq<string>, previous: Option<Moment>): Result<Row, SyncError> {
    var at := ParseTimestamp(Field(record, 0));
    if at.None? then Err(BadTimestamp)
    else if previous.Some? && at.value.Ordinal() <= previous.value.Ordinal() then Err(NotIncreasing)
    else
      var (open, high, low, close) := (ParseDecimal(Field(record, 1)), ParseDecimal(Field(record, 2)),
                                       ParseDecimal(Field(record, 3)), ParseDecimal(Field(record, 4)));
      var volume := if Field(record, 5) == "" then Some(0.0) else ParseDecimal(Field(record, 5));
      if open.None? || high.None? || low.None? || close.None? || volume.None? then Err(BadNumber)
      else Checked(Row(at.value, open.value, high.value, low.value, close.value,
                       if Field(record, 5) == "" then None else volume, Strip(Field(record, 6))))
  }

  function LastMoment(rows: seq<Row>): Option<Moment> {
    if rows == [] then None else Some(rows[|rows| - 1].at)
  }

  /** The rows of the records after the header; blank records are skipped, the first error wins. */
  function DecodeRecords(records: seq<seq<string>>, maxRows: nat): (r: Result<seq<Row>, SyncError>)
    ensures r.Ok? ==> |r.value| <= |records|
  {
    if records == [] then Ok([])
    else
      var earlier := DecodeRecords(records[..|records| - 1], maxRows);
      var record := records[|records| - 1];
      if earlier.Err? || record == [] then earlier
      else if |earlier.value| >= maxRows then Err(TooManyRows)
      else
        var row := DecodeRecord(record, LastMoment(earlier.value));
        if row.Err? then Err(row.error) else Ok(earlier.value + [row.value])
  }

  function Verified(rows: seq<Row>, manifest: Digest, symbol: string): Result<seq<Row>, SyncError> {
    if |rows| != manifest.rowCount then Err(CountMismatch)
    else if rows == [] || rows[0].at != manifest.coverageStart || rows[|rows| - 1].at != manifest.coverageEnd then Err(CoverageMismatch)
    else if (symbol, rows) != (manifest.asset, manifest.rows) then Err(ChecksumMismatch)
    else Ok(rows)
  }

  function DecodeOf(text: string, manifest: Digest, symbol: string, maxRows: nat): Result<seq<Row>, SyncError> {
    if text != manifest.text then Err(PackageMismatch)
    else
      var records := Records(text);
      if records == [] || records[0] != CSV_FIELDS then Err(BadHeader)
      else
        var rows := DecodeRecords(records[1..], maxRows);
        if rows.Err? then rows else Verified(rows.value, manifest, symbol)
  }

  lemma {:induction false} DecodeFails(records: seq<seq<string>>, n: nat, maxRows: nat)
    requires n <= |records| && DecodeRecords(records[..n], maxRows).Err?
    ensures DecodeRecords(records, maxRows) == DecodeRecords(records[..n], maxRows)
  {
    if n == |records| {
      assert records[..n] == records;
    } else {
      assert records[..|records| - 1][..n] == records[..n];
      DecodeFails(records[..|records| - 1], n, maxRows);
    }
  }

  /** Streams the records, remembering the previous timestamp. */
  method DecodeDataset(text: string, manifest: Digest, symbol: string, maxRows: nat) returns (r: Result<seq<Row>, SyncError>)
    ensures r == DecodeOf(text, manifest, symbol, maxRows)
  {
    hide DecodeRecord, Records;
    if text != manifest.text {
      return Err(PackageMismatch);
    }
    var records := ReadRecords(text);
    if records == [] || records[0] != CSV_FIELDS {
      return Err(BadHeader);
    }
    records := records[1..];
    var rows: seq<Row> := [];
    var previous: Option<Moment> := None;
    for i := 0 to |records|
      invariant DecodeRecords(records[..i], maxRows) == Ok(rows) && previous == LastMoment(rows)
    {
      assert records[..i + 1][..i] == records[..i];
      if records[i] != [] {
        if |rows| >= maxRows {
          DecodeFails(records, i + 1, maxRows);
          return Err(TooManyRows);
        }
        var row := DecodeRecord(records[i], previous);
        if row.Err? {
          DecodeFails(records, i + 1, maxRows);
          return Err(row.error);
        }
        rows := rows + [row.value];
        previous := Some(row.value.at);
      }
    }
    assert records[..|records|] == records;
    r := Verified(rows, manifest, symbol);
  }

  // ---------------------------------------------------------------- one row

  /** What the printed fields of a row keep. */
  function Kept(row: Row): Row {
    Row(row.at, Rounded(row.open, 8), Rounded(row.high, 8), Rounded(row.low, 8), Rounded(row.close, 8),
        if row.volume.None? then None else Some(Rounded(row.volume.value, 4)), Strip(row.source))
  }

  lemma PrintedNotEmpty(x: real, k: nat)
    ensures PrintDecimal(x, k) != ""
  {
    ParseUnits(Magnitude(x, k), k);
  }

  /** Decoding the fields of a row gives the row as printed, if it passes the checks. */
  lemma DecodeFields(row: Row, source: string, previous: Option<Moment>)
    ensures DecodeRecord(Fields(row)[..6] + [source], previous) ==
        if previous.Some? && row.at.Ordinal() <= previous.value.Ordinal() then Err(NotIncreasing)
        else Checked(Kept(row.(source := source)))
  {
    hide PrintDecimal, ParseDecimal, PrintTimestamp, ParseTimestamp, Rounded, Checked, Strip, DateTime.Ordinal;
    var record := Fields(row)[..6] + [source];
    assert forall i :: 0 <= i < 6 ==> record[i] == Fields(row)[i];
    assert record[6] == source;
    TimestampRoundTrip(row.at);
    DecimalRoundTrip(row.open, 8);
    DecimalRoundTrip(row.high, 8);
    DecimalRoundTrip(row.low, 8);
    DecimalRoundTrip(row.close, 8);
    if row.volume.Some? {
      DecimalRoundTrip(row.volume.value, 4);
      PrintedNotEmpty(row.volume.value, 4);
    }
  }

  // ---------------------------------------------------------------- safe fields

  predicate NoReturn(s: string) {
    forall i | 0 <= i < |s| :: s[i] != '\r'
  }

  lemma NoReturnIsSafe(d: Dialect, s: string)
    requires NoReturn(s)
    ensures Safe(d, s)
  {
  }

  lemma DigitsNoReturn(s: string)
    requires AllDigits(s)
    ensures NoReturn(s)
  {
  }

  lemma NoReturnConcat(a: string, b: string)
    requires NoReturn(a) && NoReturn(b)
    ensures NoReturn(a + b)
  {
  }

  lemma UnitsNoReturn(whole: string, fraction: string)
    requires AllDigits(whole) && AllDigits(fraction)
    ensures NoReturn(whole + "." + fraction) && NoReturn("-" + (whole + "." + fraction))
  {
    hide NoReturn, AllDigits;
    DigitsNoReturn(whole);
    DigitsNoReturn(fraction);
    Punctuation();
    NoReturnConcat(whole, ".");
    NoReturnConcat(whole + ".", fraction);
    NoReturnConcat("-", whole + "." + fraction);
  }

  lemma PrintedNoReturn(x: real, k: nat)
    ensures NoReturn(PrintDecimal(x, k))
  {
    hide Plain, Fixed, NoReturn, Pow10, AllDigits, Magnitude, Quotient, Remainder;
    var n := Magnitude(x, k);
    UnitsNoReturn(Plain(Quotient(n, Pow10(k))), Fixed(Remainder(n, Pow10(k)), k));
  }

  lemma Punctuation()
    ensures NoReturn(".") && NoReturn("-") && NoReturn("")
  {
  }

  lemma FixedNoReturn(n: nat, k: nat)
    ensures NoReturn(Fixed(n, k))
  {
    hide Fixed;
    DigitsNoReturn(Fixed(n, k));
  }

  lemma AddPart(head: string, mark: string, n: nat, k: nat)
    requires NoReturn(head) && NoReturn(mark)
    ensures NoReturn(head + mark + Fixed(n, k))
  {
    hide Fixed, NoReturn;
    FixedNoReturn(n, k);
    NoReturnConcat(head, mark);
    NoReturnConcat(head + mark, Fixed(n, k));
  }

  lemma TimestampNoReturn(at: Moment)
    ensures NoReturn(PrintTimestamp(at))
  {
    assert NoReturn("-") && NoReturn("T") && NoReturn(":") && NoReturn(".") && NoReturn("Z");
    hide Fixed, NoReturn, DateTime.Valid;
    var s := Fixed(at.year, 4);
    FixedNoReturn(at.year, 4);
    AddPart(s, "-", at.month, 2);
    s := s + "-" + Fixed(at.month, 2);
    AddPart(s, "-", at.day, 2);
    s := s + "-" + Fixed(at.day, 2);
    AddPart(s, "T", at.hour, 2);
    s := s + "T" + Fixed(at.hour, 2);
    AddPart(s, ":", at.minute, 2);
    s := s + ":" + Fixed(at.minute, 2);
    AddPart(s, ":", at.second, 2);
    s := s + ":" + Fixed(at.second, 2);
    AddPart(s, ".", at.milli, 3);
    s := s + "." + Fixed(at.milli, 3);
    NoReturnConcat(s, "Z");
  }

  lemma HeaderSafe(d: Dialect)
    ensures AllSafe(d, CSV_FIELDS) && Visible(CSV_FIELDS)
  {
  }

  lemma FieldsSafe(d: Dialect, row: Row)
    ensures AllSafe(d, Fields(row)[..6]) && Visible(Fields(row))
    ensures Safe(d, row.source) ==> AllSafe(d, Fields(row))
  {
    hide PrintDecimal, PrintTimestamp, NoReturn, Safe;
    TimestampNoReturn(row.at);
    Punctuation();
    PrintedNoReturn(row.open, 8);
    PrintedNoReturn(row.high, 8);
    PrintedNoReturn(row.low, 8);
    PrintedNoReturn(row.close, 8);
    if row.volume.Some? {
      PrintedNoReturn(row.volume.value, 4);
    }
    forall i | 0 <= i < 6
      ensures Safe(d, Fields(row)[i])
    {
      NoReturnIsSafe(d, Fields(row)[i]);
    }
  }

  // ---------------------------------------------------------------- the round trip

  /** A row whose printed form says everything: prices of at most eight decimals, a missing or
      non-negative volume of at most four, a trimmed source the CSV reader gets back, and valid
      open, high, low and close. */
  predicate Faithful(d: Dialect, row: Row) {
    Kept(row) == row && Checked(row).Ok? && Safe(d, row.source)
  }

  ghost predicate AllFaithful(d: Dialect, rows: seq<Row>) {
    forall i :: 0 <= i < |rows| ==> Faithful(d, rows[i])
  }

  lemma DecodeWhole(d: Dialect, row: Row, previous: Option<Moment>)
    ensures DecodeRecord(Fields(row), previous) ==
        if previous.Some? && row.at.Ordinal() <= previous.value.Ordinal() then Err(NotIncreasing) else Checked(Kept(row))
  {
    hide *;
    DecodeFields(row, row.source, previous);
    assert Fields(row)[..6] + [row.source] == Fields(row);
    assert row.(source := row.source) == row;
  }

  lemma CheckedIsSame(row: Row)
    ensures Checked(row).Ok? ==> Checked(row).value == row
  {
  }

  lemma DecodeSnoc(records: seq<seq<string>>, record: seq<string>, maxRows: nat)
    requires record != []
    ensures DecodeRecords(records + [record], maxRows) ==
        (var earlier := DecodeRecords(records, maxRows);
        if earlier.Err? then earlier
        else if |earlier.value| >= maxRows then Err(TooManyRows)
        else
          var row := DecodeRecord(record, LastMoment(earlier.value));
          if row.Err? then Err(row.error) else Ok(earlier.value + [row.value]))
  {
    hide DecodeRecord;
    assert (records + [record])[..|records|] == records;
  }

  lemma FieldRowsSnoc(init: seq<Row>, last: Row)
    ensures FieldRows(init + [last]) == FieldRows(init) + [Fields(last)] && Fields(last) != []
  {
  }

  lemma DecodeLast(d: Dialect, init: seq<Row>, last: Row, maxRows: nat)
    requires |init| < maxRows && Safe(d, last.source)
    ensures DecodeRecords(FieldRows(init + [last]), maxRows) == Ok(init + [last]) <==>
        DecodeRecords(FieldRows(init), maxRows) == Ok(init) && Faithful(d, last)
        && (init != [] ==> init[|init| - 1].at.Ordinal() < last.at.Ordinal())
  {
    hide Fields, DecodeRecord, DecodeRecords, Checked, Kept, DateTime.Ordinal, Safe, FieldRows;
    FieldRowsSnoc(init, last);
    DecodeSnoc(FieldRows(init), Fields(last), maxRows);
    var earlier := DecodeRecords(FieldRows(init), maxRows);
    if earlier.Ok? {
      DecodeWhole(d, last, LastMoment(earlier.value));
      var row := DecodeRecord(Fields(last), LastMoment(earlier.value));
      CheckedIsSame(Kept(last));
      if row.Ok? {
        AppendSame(earlier.value, init, row.value, last);
      }
    }
  }

  /** The records of safely written rows decode to the rows exactly when the rows are faithful and
      their timestamps grow. */
  lemma {:induction false} DecodeRows(d: Dialect, rows: seq<Row>, maxRows: nat)
    requires |rows| <= maxRows && forall i :: 0 <= i < |rows| ==> Safe(d, rows[i].source)
    ensures DecodeRecords(FieldRows(rows), maxRows) == Ok(rows) <==> AllFaithful(d, rows) && StrictlyIncreasing(rows)
  {
    if rows == [] {
      assert FieldRows(rows) == [];
    } else {
      hide *;
      var (init, last) := (rows[..|rows| - 1], rows[|rows| - 1]);
      assert rows == init + [last];
      assert forall i :: 0 <= i < |init| ==> init[i].source == rows[i].source;
      DecodeRows(d, init, maxRows);
      DecodeLast(d, init, last, maxRows);
      FaithfulSnoc(d, init, last);
    }
  }

  lemma AppendSame(a: seq<Row>, b: seq<Row>, x: Row, y: Row)
    ensures a + [x] == b + [y] <==> a == b && x == y
  {
    if a + [x] == b + [y] {
      assert |a| == |b|;
      assert a == (a + [x])[..|a|] && b == (b + [y])[..|b|];
      assert x == (a + [x])[|a|];
    }
  }

  lemma FaithfulSnoc(d: Dialect, init: seq<Row>, last: Row)
    ensures AllFaithful(d, init + [last]) <==> AllFaithful(d, init) && Faithful(d, last)
    ensures StrictlyIncreasing(init + [last]) <==>
        StrictlyIncreasing(init) && (init != [] ==> init[|init| - 1].at.Ordinal() < last.at.Ordinal())
  {
    hide Faithful, DateTime.Ordinal;
    var rows := init + [last];
    assert rows[|init|] == last && forall i :: 0 <= i < |init| ==> rows[i] == init[i];
  }

  lemma HeaderAndRows(d: Dialect, rows: seq<Row>)
    requires forall i :: 0 <= i < |rows| ==> Safe(d, rows[i].source)
    ensures Writable(d, [CSV_FIELDS] + FieldRows(rows))
  {
    var all := [CSV_FIELDS] + FieldRows(rows);
    HeaderSafe(d);
    hide Visible, AllSafe, Fields, Safe;
    forall i | 0 <= i < |all|
      ensures Visible(all[i]) && AllSafe(d, all[i])
    {
      if i > 0 {
        FieldsSafe(d, rows[i - 1]);
        assert all[i] == Fields(rows[i - 1]);
      }
    }
  }

  /** With safe sources the package text reads back as the header and the fields of the rows. */
  lemma SafePackage(d: Dialect, rows: seq<Row>)
    requires forall i :: 0 <= i < |rows| ==> Safe(d, rows[i].source)
    ensures Records(PackageText(d, rows)) == [CSV_FIELDS] + FieldRows(rows)
  {
    hide Records, Lines, FieldRows, Safe;
    HeaderAndRows(d, rows);
    RecordsOfLines(d, [CSV_FIELDS] + FieldRows(rows));
  }

  lemma PackageSnoc(d: Dialect, init: seq<Row>, last: Row)
    ensures PackageText(d, init + [last]) == PackageText(d, init) + Line(d, Fields(last))
  {
    hide Line, Fields;
    var all := [CSV_FIELDS] + FieldRows(init + [last]);
    assert all[..|all| - 1] == [CSV_FIELDS] + FieldRows(init);
    assert all[|all| - 1] == Fields(last);
  }

  lemma {:induction false} PackagePrefix(d: Dialect, rows: seq<Row>, n: nat) returns (rest: string)
    requires n < |rows|
    ensures PackageText(d, rows) == PackageText(d, rows[..n]) + Line(d, Fields(rows[n])) + rest
  {
    hide *;
    var (init, last) := (rows[..|rows| - 1], rows[|rows| - 1]);
    assert rows == init + [last];
    PackageSnoc(d, init, last);
    if n == |init| {
      rest := "";
      assert PackageText(d, rows) + "" == PackageText(d, rows);
    } else {
      var before := PackagePrefix(d, init, n);
      assert init[..n] == rows[..n];
      rest := before + Line(d, Fields(last));
      Assoc(PackageText(d, rows[..n]) + Line(d, Fields(rows[n])), before, Line(d, Fields(last)));
    }
  }

  /** Decoded records form a prefix of what more records decode to. */
  lemma {:induction false} DecodePrefix(records: seq<seq<string>>, n: nat, maxRows: nat)
    requires n <= |records|
    ensures DecodeRecords(records, maxRows).Ok? ==> DecodeRecords(records[..n], maxRows).Ok?
    ensures DecodeRecords(records, maxRows).Ok? ==>
        var (part, all) := (DecodeRecords(records[..n], maxRows).value, DecodeRecords(records, maxRows).value);
        |part| <= |all| && all[..|part|] == part
  {
    if n == |records| {
      assert records[..n] == records;
    } else {
      hide DecodeRecord;
      assert records[..|records| - 1][..n] == records[..n];
      DecodePrefix(records[..|records| - 1], n, maxRows);
    }
  }

  lemma {:induction false} DecodeCounts(records: seq<seq<string>>, maxRows: nat)
    requires forall i :: 0 <= i < |records| ==> records[i] != []
    ensures DecodeRecords(records, maxRows).Ok? ==> |DecodeRecords(records, maxRows).value| == |records|
  {
    if records != [] {
      hide DecodeRecord;
      DecodeCounts(records[..|records| - 1], maxRows);
    }
  }

  lemma {:induction false} FirstUnsafe(d: Dialect, rows: seq<Row>) returns (n: nat)
    requires exists i :: 0 <= i < |rows| && !Safe(d, rows[i].source)
    ensures n < |rows| && !Safe(d, rows[n].source) && forall i :: 0 <= i < n ==> Safe(d, rows[i].source)
  {
    n := 0;
    while Safe(d, rows[n].source)
      invariant n < |rows| && forall i :: 0 <= i < n ==> Safe(d, rows[i].source)
      invariant exists i :: n <= i < |rows| && !Safe(d, rows[i].source)
      decreases |rows| - n
    {
      n := n + 1;
    }
  }

  /** What the reader sees of a package up to its first unsafe source. */
  lemma UnsafeRecords(d: Dialect, rows: seq<Row>, n: nat)
    requires n < |rows| && !Safe(d, rows[n].source) && forall i :: 0 <= i < n ==> Safe(d, rows[i].source)
    ensures var records := Records(PackageText(d, rows));
      && |records| > n + 1 && records[..n + 1] == [CSV_FIELDS] + FieldRows(rows[..n])
      && records[n + 1] == Fields(rows[n])[..6] + [BeforeReturn(rows[n].source)]
  {
    hide Records, Lines, Line, Fields, FieldRows, Safe, AllSafe, Visible, Writable, BeforeReturn;
    var rest := PackagePrefix(d, rows, n);
    FieldsSafe(d, rows[n]);
    assert Fields(rows[n])[..6] + [rows[n].source] == Fields(rows[n]);
    assert forall i :: 0 <= i < |rows[..n]| ==> rows[..n][i].source == rows[i].source;
    HeaderAndRows(d, rows[..n]);
    UnsafeFieldIsCut(d, [CSV_FIELDS] + FieldRows(rows[..n]), Fields(rows[n])[..6], rows[n].source, rest);
  }

  lemma KeptSource(row: Row, source: string)
    ensures Kept(row.(source := source)).source == Strip(source)
  {
  }

  lemma UnsafeSourceFails(d: Dialect, rows: seq<Row>, maxRows: nat)
    requires exists i :: 0 <= i < |rows| && !Safe(d, rows[i].source)
    ensures Records(PackageText(d, rows)) != []
    ensures DecodeRecords(Records(PackageText(d, rows))[1..], maxRows) != Ok(rows)
  {
    hide *;
    var n := FirstUnsafe(d, rows);
    UnsafeRecords(d, rows, n);
    var records := Records(PackageText(d, rows))[1..];
    var cut := Fields(rows[n])[..6] + [BeforeReturn(rows[n].source)];
    assert records[..n] == Records(PackageText(d, rows))[..n + 1][1..] == FieldRows(rows[..n]);
    assert records[n] == cut;
    if DecodeRecords(records, maxRows) == Ok(rows) {
      CutRow(rows, records, n, maxRows);
    }
  }

  /** If the records decode at all, the cut record became a row whose source is cut. */
  lemma CutRow(rows: seq<Row>, records: seq<seq<string>>, n: nat, maxRows: nat)
    requires n < |rows| && n < |records| && records[..n] == FieldRows(rows[..n]) && '\r' in rows[n].source
    requires records[n] == Fields(rows[n])[..6] + [BeforeReturn(rows[n].source)]
    ensures var all := DecodeRecords(records, maxRows);
      all.Ok? ==> |all.value| > n && all.value[n].source == Strip(BeforeReturn(rows[n].source))
  {
    hide *;
    if DecodeRecords(records, maxRows).Err? {
      return;
    }
    var head := BeforeReturn(rows[n].source);
    assert records[..n + 1] == FieldRows(rows[..n]) + [records[n]];
    DecodePrefix(records, n + 1, maxRows);
    DecodeSnoc(FieldRows(rows[..n]), records[n], maxRows);
    FieldRowsVisible(rows[..n]);
    var earlier := DecodeRecords(FieldRows(rows[..n]), maxRows);
    DecodeCounts(FieldRows(rows[..n]), maxRows);
    DecodeFields(rows[n], head, LastMoment(earlier.value));
    CheckedIsSame(Kept(rows[n].(source := head)));
    KeptSource(rows[n], head);
    var part, all := DecodeRecords(records[..n + 1], maxRows).value, DecodeRecords(records, maxRows).value;
    assert part[n] == all[..|part|][n];
  }

  lemma FieldRowsVisible(rows: seq<Row>)
    ensures forall i :: 0 <= i < |FieldRows(rows)| ==> FieldRows(rows)[i] != []
  {
  }

  /** What the encoder accepts: one asset's daily bars, some and not too many. */
  predicate Encodable(entries: seq<Entry>) {
    0 < |entries| <= MAX_DATASET_ROWS
    && forall i | 0 <= i < |entries| :: entries[i].timeframe == "1d" && entries[i].asset == entries[0].asset
  }

  /** The round trip: decoding an encoded package against its own digest gives back exactly the
      normalized rows if and only if every row is faithful and the timestamps strictly grow. */
  lemma RoundTripIff(d: Dialect, entries: seq<Entry>)
    requires Encodable(entries)
    ensures EncodeOf(d, entries).Ok?
    ensures var digest := EncodeOf(d, entries).value;
      DecodeOf(digest.text, digest, entries[0].asset, MAX_DATASET_ROWS) == Ok(Normalized(entries)) <==>
        AllFaithful(d, Normalized(entries)) && StrictlyIncreasing(Normalized(entries))
  {
    hide *;
    var rows := Normalized(entries);
    EncodedParts(d, entries);
    DecodeParts(d, rows, entries[0].asset);
    if forall i :: 0 <= i < |rows| ==> Safe(d, rows[i].source) {
      SafePackage(d, rows);
      DecodeRows(d, rows, MAX_DATASET_ROWS);
      assert ([CSV_FIELDS] + FieldRows(rows))[1..] == FieldRows(rows);
    } else {
      UnsafeSourceFails(d, rows, MAX_DATASET_ROWS);
      AllFaithfulIsSafe(d, rows);
    }
  }

  /** The digest of encoded rows. */
  function DigestOf(d: Dialect, rows: seq<Row>, asset: string): Digest
    requires rows != []
  {
    Digest(|rows|, rows[0].at, rows[|rows| - 1].at, asset, rows, PackageText(d, rows))
  }

  lemma EncodedParts(d: Dialect, entries: seq<Entry>)
    ensures EncodeOf(d, entries).Ok? <==> Encodable(entries)
    ensures Encodable(entries) ==> 0 < |Normalized(entries)| <= MAX_DATASET_ROWS
    ensures Encodable(entries) ==> EncodeOf(d, entries).value == DigestOf(d, Normalized(entries), entries[0].asset)
  {
    hide Normalized, PackageText;
  }

  /** With its own digest, a package decodes to its rows exactly when its records do. */
  lemma DecodeParts(d: Dialect, rows: seq<Row>, asset: string)
    requires rows != []
    ensures DigestOf(d, rows, asset).text == PackageText(d, rows)
    ensures var records := Records(PackageText(d, rows));
      DecodeOf(DigestOf(d, rows, asset).text, DigestOf(d, rows, asset), asset, MAX_DATASET_ROWS) == Ok(rows) <==>
        records != [] && records[0] == CSV_FIELDS && DecodeRecords(records[1..], MAX_DATASET_ROWS) == Ok(rows)
  {
    hide Records, PackageText, DecodeRecords;
  }

  lemma AllFaithfulIsSafe(d: Dialect, rows: seq<Row>)
    ensures AllFaithful(d, rows) ==> forall i :: 0 <= i < |rows| ==> Safe(d, rows[i].source)
  {
    hide Safe, Kept, Checked;
  }

  // ---------------------------------------------------------------- what the columns hold

  /** Under each header stands the value it names: the moment, the four prices with eight decimals, the
      volume with four or nothing, and the source. */
  lemma ColumnsMatchHeader(row: Row)
    ensures var fields := Fields(row);
      && CSV_FIELDS == ["timestamp", "open", "high", "low", "close", "volume", "source"]
      && ParseTimestamp(fields[0]) == Some(row.at)
      && ParseDecimal(fields[1]) == Some(Nearest(row.open, 100000000.0))
      && ParseDecimal(fields[2]) == Some(Nearest(row.high, 100000000.0))
      && ParseDecimal(fields[3]) == Some(Nearest(row.low, 100000000.0))
      && ParseDecimal(fields[4]) == Some(Nearest(row.close, 100000000.0))
      && (if row.volume.None? then fields[5] == "" else ParseDecimal(fields[5]) == Some(Nearest(row.volume.value, 10000.0)))
      && fields[6] == row.source
  {
    hide ParseTimestamp, PrintTimestamp, ParseDecimal, PrintDecimal, Nearest;
    TimestampRoundTrip(row.at);
    DecimalRoundTrip(row.open, 8);
    DecimalRoundTrip(row.high, 8);
    DecimalRoundTrip(row.low, 8);
    DecimalRoundTrip(row.close, 8);
    SmallPowers();
    assert Pow10(5) == 100000 && Pow10(6) == 1000000 && Pow10(7) == 10000000 && Pow10(8) == 100000000;
    if row.volume.Some? {
      DecimalRoundTrip(row.volume.value, 4);
    }
  }

  /** What an accepted record gives: a later moment than the one before, and values that make sense. */
  lemma RecordIsSound(record: seq<string>, previous: Option<Moment>)
    requires DecodeRecord(record, previous).Ok?
    ensures var row := DecodeRecord(record, previous).value;
      && row.low <= row.open <= row.high && row.low <= row.close <= row.high && row.source != ""
      && (row.volume.Some? ==> row.volume.value >= 0.0)
      && (previous.Some? ==> previous.value.Ordinal() < row.at.Ordinal())
  {
    hide ParseTimestamp, ParseDecimal, Strip, DateTime.Ordinal;
  }

  lemma {:induction false} DecodedIsSound(records: seq<seq<string>>, maxRows: nat)
    requires DecodeRecords(records, maxRows).Ok?
    ensures var rows := DecodeRecords(records, maxRows).value;
      && |rows| <= maxRows && StrictlyIncreasing(rows)
      && forall i :: 0 <= i < |rows| ==>
           && rows[i].low <= rows[i].open <= rows[i].high && rows[i].low <= rows[i].close <= rows[i].high
           && rows[i].source != "" && (rows[i].volume.Some? ==> rows[i].volume.value >= 0.0)
  {
    hide DecodeRecord, DateTime.Ordinal;
    if records != [] {
      var (init, record) := (records[..|records| - 1], records[|records| - 1]);
      DecodedIsSound(init, maxRows);
      if record != [] {
        RecordIsSound(record, LastMoment(DecodeRecords(init, maxRows).value));
      }
    }
  }

  /** A package is accepted only if its text, row count, coverage, symbol and rows are those of its
      manifest; its rows are then in strict time order, not too many, and sensible one by one. */
  lemma AcceptedPackagesMatch(text: string, manifest: Digest, symbol: string, maxRows: nat)
    requires DecodeOf(text, manifest, symbol, maxRows).Ok?
    ensures var rows := DecodeOf(text, manifest, symbol, maxRows).value;
      && text == manifest.text && symbol == manifest.asset && rows == manifest.rows && rows != []
      && |rows| == manifest.rowCount <= maxRows
      && rows[0].at == manifest.coverageStart && rows[|rows| - 1].at == manifest.coverageEnd
      && StrictlyIncreasing(rows)
      && forall i :: 0 <= i < |rows| ==>
           && rows[i].low <= rows[i].open <= rows[i].high && rows[i].low <= rows[i].close <= rows[i].high
           && rows[i].source != "" && (rows[i].volume.Some? ==> rows[i].volume.value >= 0.0)
  {
    hide DecodeRecords, Records;
    DecodedIsSound(Records(text)[1..], maxRows);
  }

  /** The encoder refuses exactly empty input, too many rows, other than daily rows and several assets,
      in this order. */
  lemma EncoderRefuses(d: Dialect, entries: seq<Entry>)
    ensures var daily := forall i :: 0 <= i < |entries| ==> entries[i].timeframe == "1d";
      var oneAsset := forall i, j :: 0 <= i < j < |entries| ==> entries[i].asset == entries[j].asset;
      && (EncodeOf(d, entries) == Err(NoBars) <==> entries == [])
      && (EncodeOf(d, entries) == Err(TooManyRows) <==> |entries| > 250000)
      && (EncodeOf(d, entries) == Err(NotDaily) <==> 0 < |entries| <= 250000 && !daily)
      && (EncodeOf(d, entries) == Err(SeveralAssets) <==> 0 < |entries| <= 250000 && daily && !oneAsset)
      && (EncodeOf(d, entries).Ok? <==> 0 < |entries| <= 250000 && daily && oneAsset)
  {
    hide Normalized, PackageText;
    if entries != [] {
      assert |Normalized(entries)| == |entries|;
    }
  }

  /** A row passes the checks exactly if it has a source, no negative volume, and open and close between
      low and high. */
  lemma SensibleIff(row: Row)
    ensures Checked(row).Ok? <==>
        && row.source != "" && (row.volume.Some? ==> row.volume.value >= 0.0)
        && row.low <= row.open <= row.high && row.low <= row.close <= row.high
    ensures Checked(row).Ok? ==> Checked(row).value == row
  {
  }
}
