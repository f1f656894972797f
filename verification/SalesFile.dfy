/** Reading a sales file: the validator that remembers record ids, and the loop over the file's records. */
module SalesFile {
  import opened Results
  import opened Text
  import opened Tables
  import opened SalesRows
  import opened SalesHeaders
  import opened SalesContract
  import opened RowMeaning
  import CellMeaning
  import Staging

  /** One record of the CSV reader, and the physical lines it took. */
  datatype Record = Record(cells: seq<string>, lines: nat)

  /** What comes after the last record. */
  datatype Tail = EndOfFile | MalformedCsv | UndecodableBytes

  // ----- The rows of a file -----

  datatype DataRow = DataRow(number: nat, cells: seq<string>)

  predicate Blank(cells: seq<string>) {
    forall c | c in cells :: Strip(c) == []
  }

  function LinesOf(records: seq<Record>): nat {
    if records == [] then 0 else LinesOf(records[..|records| - 1]) + records[|records| - 1].lines
  }

  /** The non-blank records after `line` physical lines; a row is numbered by its first line. */
  function DataRows(records: seq<Record>, line: nat): seq<DataRow> {
    if records == [] then []
    else
      var n := |records| - 1;
      DataRows(records[..n], line)
        + if Blank(records[n].cells) then [] else [DataRow(line + LinesOf(records[..n]) + 1, records[n].cells)]
  }

  predicate Increasing(rows: seq<DataRow>) {
    forall i, j | 0 <= i < j < |rows| :: rows[i].number < rows[j].number
  }

  /** Row numbers start after the header and strictly increase. */
  lemma {:induction false} RowNumbers(records: seq<Record>, line: nat)
    requires line >= 1 && forall r | r in records :: r.lines >= 1
    ensures Increasing(DataRows(records, line))
    ensures forall r | r in DataRows(records, line) ::
              2 <= line + 1 <= r.number <= line + LinesOf(records) && !Blank(r.cells)
  {
    hide Blank;
    if records != [] {
      assert records[|records| - 1] in records;
      RowNumbers(records[..|records| - 1], line);
    }
  }

  // ----- Results -----

  predicate Distinct(headers: seq<string>) {
    forall i, j | 0 <= i < j < |headers| :: headers[i] != headers[j]
  }

  /** `dict(zip(headers, cells))`. */
  function Zip(headers: seq<string>, cells: seq<string>): Values
    requires |headers| == |cells| && Distinct(headers)
  {
    map i | 0 <= i < |headers| :: headers[i] := cells[i]
  }

  predicate NineColumns(headers: seq<string>) {
    |headers| == 9 && Distinct(headers) && forall c: Column | DataColumn(c) :: ColumnName(c) in headers
  }

  lemma ZipHasColumns(headers: seq<string>, cells: seq<string>)
    requires NineColumns(headers) && |cells| == 9
    ensures HasColumns(Zip(headers, cells))
  {
    hide ColumnName;
  }

  function WidthIssue(row: nat): Issue {
    RowIssue(row, WholeRow, RowColumnCountMismatch)
  }

  /** The trimmed record id of a row of the right width. */
  function IdOf(headers: seq<string>, r: DataRow): Option<string>
    requires NineColumns(headers)
  {
    if |r.cells| != 9 then None
    else
      ZipHasColumns(headers, r.cells);
      RecordId(Zip(headers, r.cells), r.number).0
  }

  function SeenBefore(headers: seq<string>, rows: seq<DataRow>): set<string>
    requires NineColumns(headers)
  {
    if rows == [] then {} else Seen(SeenBefore(headers, rows[..|rows| - 1]), IdOf(headers, rows[|rows| - 1]))
  }

  function ResultFor(headers: seq<string>, seen: set<string>, r: DataRow): RowResult
    requires NineColumns(headers)
  {
    if |r.cells| != 9 then RowResult(r.number, None, [WidthIssue(r.number)])
    else
      ZipHasColumns(headers, r.cells);
      ResultOf(Zip(headers, r.cells), seen, r.number)
  }

  function ResultsFor(headers: seq<string>, rows: seq<DataRow>): (results: seq<RowResult>)
    requires NineColumns(headers)
    ensures |results| == |rows|
  {
    if rows == [] then []
    else
      var n := |rows| - 1;
      ResultsFor(headers, rows[..n]) + [ResultFor(headers, SeenBefore(headers, rows[..n]), rows[n])]
  }

  function TailEnd(tail: Tail, rows: nat): StreamEnd {
    match tail
    case EndOfFile => if rows == 0 then FileError(FileNoDataRows) else Finished
    case MalformedCsv => FileError(CsvMalformed)
    case UndecodableBytes => Undecodable
  }

  lemma HeadersAccepted(headers: seq<string>)
    requires ValidateSalesHeaders(headers).Ok?
    ensures NineColumns(ValidateSalesHeaders(headers).value)
  {
    hide ValidateSalesHeaders, ColumnName;
    AcceptedFacts(headers);
  }

  /** What the whole file yields, and how it ends. */
  function Read(records: seq<Record>, tail: Tail, maxRows: nat): (seq<RowResult>, StreamEnd) {
    if records == [] then ([], TailEnd(tail, 0))
    else
      var headers := ValidateSalesHeaders(records[0].cells);
      if headers.Err? then ([], FileError(headers.error))
      else
        HeadersAccepted(records[0].cells);
        var rows := DataRows(records[1..], records[0].lines);
        if |rows| > maxRows then (ResultsFor(headers.value, rows[..maxRows]), FileError(FileRowLimitExceeded))
        else (ResultsFor(headers.value, rows), TailEnd(tail, |rows|))
  }

  // ----- The validator -----

  lemma ExtendThree(base: seq<Issue>, a: seq<Issue>, b: seq<Issue>, c: seq<Issue>)
    ensures base + a + b + c == base + Joined(a, b, c)
  {
  }

  lemma CrossIs(values: Values, row: nat, base: seq<Issue>)
    requires HasColumns(values)
    ensures var f, raw := FieldsOf(values, row), CurrencyText(values);
            base + IssueWhen(WrongCurrency(f.currency, raw), row, CurrencyColumn, CurrencyCodeInvalid)
            + IssueWhen(f.quantity == Some(0), row, QuantityColumn, QuantityZero)
            + IssueWhen(SignMismatch(f.quantity, f.revenue), row, RevenueColumn, MeasureSignMismatch)
            == base + CrossIssues(f, raw, row)
  {
    hide HasColumns, FieldsOf, CurrencyText, WrongCurrency, SignMismatch, IssueWhen;
  }

  lemma DuplicateIs(values: Values, seen: set<string>, row: nat)
    requires HasColumns(values)
    ensures var id, base := RecordId(values, row).0, FieldIssues(values, row)
            + CrossIssues(FieldsOf(values, row), CurrencyText(values), row);
            && RowIssues(values, seen, row)
               == (if id.Some? && id.value in seen
                   then base + [RowIssue(row, SourceRecordIdColumn, DuplicateSourceRecordId)] else base)
            && Seen(seen, id) == (if id.Some? && id.value !in seen then seen + {id.value} else seen)
  {
    hide HasColumns, FieldIssues, CrossIssues, CurrencyText, RecordId;
    FieldsRecordId(values, row);
  }

  class SalesRowsV1Validator {
    const maxRows: nat
    var rowCount: nat
    var sourceRecordIds: set<string>

    constructor (maxRows: nat)
      requires maxRows >= 1
      ensures this.maxRows == maxRows && rowCount == 0 && sourceRecordIds == {}
    {
      this.maxRows := maxRows;
      rowCount, sourceRecordIds := 0, {};
    }

    /** Counts a non-blank row; beyond the limit the file is rejected. */
    method NoteRow() returns (error: Option<IssueCode>)
      modifies this`rowCount
      ensures rowCount == old(rowCount) + 1
      ensures error == if old(rowCount) >= maxRows then Some(FileRowLimitExceeded) else None
    {
      rowCount := rowCount + 1;
      error := if rowCount > maxRows then Some(FileRowLimitExceeded) else None;
    }

    method Validate(row: nat, values: Values) returns (result: Result<RowResult, IssueCode>)
      requires HasColumns(values)
      modifies this
      ensures rowCount == old(rowCount) + 1
      ensures old(rowCount) >= maxRows
              ==> result == Err(FileRowLimitExceeded) && sourceRecordIds == old(sourceRecordIds)
      ensures old(rowCount) < maxRows ==>
                && result == Ok(ResultOf(values, old(sourceRecordIds), row))
                && sourceRecordIds == Seen(old(sourceRecordIds), RecordId(values, row).0)
      ensures result.Ok? && result.value.IsValid() ==> FromCells(result.value.row.value, values, row)
    {
      hide HasColumns, RecordId, DateField, Code, Quantity, Revenue, CurrencyCode, Value, CurrencyText, WrongCurrency,
           SignMismatch, Joined, IssueWhen, RowIssues, CrossIssues, Seen, FromCells;
      var error := NoteRow();
      if error.Some? {
        return Err(error.value);
      }
      var issues: seq<Issue> := [];
      var sourceRecordId := RecordId(values, row);
      issues := issues + sourceRecordId.1;
      var transactionDate := DateField(Value(values, TransactionDateColumn), row);
      issues := issues + transactionDate.1;
      var productCode := Code(values, row, ProductColumn, true);
      issues := issues + productCode.1;
      ExtendThree([], sourceRecordId.1, transactionDate.1, productCode.1);
      assert issues == LeadingIssues(values, row);
      var territoryCode := Code(values, row, TerritoryColumn, true);
      issues := issues + territoryCode.1;
      var hospitalCode := Code(values, row, HospitalColumn, false);
      issues := issues + hospitalCode.1;
      var representativeCode := Code(values, row, RepresentativeColumn, false);
      issues := issues + representativeCode.1;
      ExtendThree(LeadingIssues(values, row), territoryCode.1, hospitalCode.1, representativeCode.1);
      assert issues == LeadingIssues(values, row) + PlaceIssues(values, row);
      var quantity := Quantity(values, row);
      issues := issues + quantity.1;
      var revenueAmount := Revenue(values, row);
      issues := issues + revenueAmount.1;
      var rawCurrencyCode := CurrencyText(values);
      var currencyCode := CurrencyCode(values, row);
      issues := issues + currencyCode.1;
      ExtendThree(LeadingIssues(values, row) + PlaceIssues(values, row), quantity.1, revenueAmount.1, currencyCode.1);
      ExtendThree([], LeadingIssues(values, row), PlaceIssues(values, row), MeasureIssues(values, row));
      assert issues == FieldIssues(values, row);
      issues := issues
        + IssueWhen(WrongCurrency(currencyCode.0, rawCurrencyCode), row, CurrencyColumn, CurrencyCodeInvalid);
      issues := issues + IssueWhen(quantity.0 == Some(0), row, QuantityColumn, QuantityZero);
      issues := issues + IssueWhen(SignMismatch(quantity.0, revenueAmount.0), row, RevenueColumn, MeasureSignMismatch);
      CrossIs(values, row, FieldIssues(values, row));
      assert issues == FieldIssues(values, row) + CrossIssues(FieldsOf(values, row), rawCurrencyCode, row);
      DuplicateIs(values, sourceRecordIds, row);
      if sourceRecordId.0.Some? {
        if sourceRecordId.0.value in sourceRecordIds {
          issues := issues + [RowIssue(row, SourceRecordIdColumn, DuplicateSourceRecordId)];
        } else {
          sourceRecordIds := sourceRecordIds + {sourceRecordId.0.value};
        }
      }
      assert issues == RowIssues(values, old(sourceRecordIds), row);
      if issues != [] {
        return Ok(RowResult(row, None, issues));
      }
      NoIssuesComplete(values, old(sourceRecordIds), row);
      AcceptedFromCells(values, old(sourceRecordIds), row);
      result := Ok(RowResult(row, Some(SalesRow(
                                         sourceRecordId.0.value, transactionDate.0.value, productCode.0.value,
                                         territoryCode.0.value, hospitalCode.0,
                                         representativeCode.0, quantity.0.value, revenueAmount.0.value,
                                         currencyCode.0.value)), []));
    }
  }

  // ----- The loop over the file -----

  lemma NextRow(records: seq<Record>, line: nat, n: nat)
    requires n < |records|
    ensures LinesOf(records[..n + 1]) == LinesOf(records[..n]) + records[n].lines
    ensures DataRows(records[..n + 1], line)
            == DataRows(records[..n], line)
              + if Blank(records[n].cells) then [] else [DataRow(line + LinesOf(records[..n]) + 1, records[n].cells)]
  {
    hide Blank;
    assert records[..n + 1][..n] == records[..n];
  }

  lemma NextResult(headers: seq<string>, rows: seq<DataRow>, r: DataRow)
    requires NineColumns(headers)
    ensures ResultsFor(headers, rows + [r])
            == ResultsFor(headers, rows) + [ResultFor(headers, SeenBefore(headers, rows), r)]
    ensures SeenBefore(headers, rows + [r]) == Seen(SeenBefore(headers, rows), IdOf(headers, r))
  {
    hide NineColumns, ResultFor, IdOf;
    assert (rows + [r])[..|rows|] == rows;
  }

  lemma {:induction false} RowsPrefix(records: seq<Record>, line: nat, n: nat)
    requires n <= |records|
    ensures DataRows(records[..n], line) <= DataRows(records, line)
  {
    hide Blank;
    if n < |records| {
      assert records[..|records| - 1][..n] == records[..n];
      RowsPrefix(records[..|records| - 1], line, n);
    } else {
      assert records[..n] == records;
    }
  }

  lemma NoRowsYet(headers: seq<string>, line: nat)
    requires NineColumns(headers)
    ensures DataRows([], line) == [] && LinesOf([]) == 0 && ResultsFor(headers, []) == []
            && SeenBefore(headers, []) == {}
  {
  }

  /** `iter_sales_rows_v1_csv`: the yielded results, and the exception or end that follows them. */
  method IterSalesRows(records: seq<Record>, tail: Tail, maxRows: nat) returns (results: seq<RowResult>, end: StreamEnd)
    requires maxRows >= 1
    ensures (results, end) == Read(records, tail, maxRows)
    ensures FromRecords(results, records)
  {
    hide ValidateSalesHeaders, NineColumns, ResultOf, Blank, RecordId, HasColumns, Zip, DataRows, LinesOf, ResultsFor,
         SeenBefore, Seen, FromRecords;
    ReadFromRecords(records, tail, maxRows);
    if records == [] {
      return [], TailEnd(tail, 0);
    }
    var headers := ValidateSalesHeaders(records[0].cells);
    if headers.Err? {
      return [], FileError(headers.error);
    }
    HeadersAccepted(records[0].cells);
    NineLong(headers.value);
    var validator := new SalesRowsV1Validator(maxRows);
    var body, line := records[1..], records[0].lines;
    ghost var rows: seq<DataRow> := [];
    results := [];
    NoRowsYet(headers.value, line);
    assert body[..0] == [];
    var lineNumber := line;
    for n := 0 to |body|
      invariant lineNumber == line + LinesOf(body[..n])
      invariant rows == DataRows(body[..n], line) && |rows| == validator.rowCount <= maxRows
      invariant validator.maxRows == maxRows && results == ResultsFor(headers.value, rows)
      invariant validator.sourceRecordIds == SeenBefore(headers.value, rows)
      invariant fresh(validator)
    {
      var row, raw := lineNumber + 1, body[n].cells;
      NextRow(body, line, n);
      lineNumber := lineNumber + body[n].lines;
      if Blank(raw) {
        assert rows + [] == rows;
        continue;
      }
      ghost var r := DataRow(row, raw);
      NextResult(headers.value, rows, r);
      RowIs(headers.value, SeenBefore(headers.value, rows), r);
      if |raw| != 9 {
        var error := validator.NoteRow();
        if error.Some? {
          TooMany(body, line, n + 1, rows, r, maxRows);
          return results, FileError(error.value);
        }
        results := results + [RowResult(row, None, [WidthIssue(row)])];
      } else {
        var result := validator.Validate(row, Zip(headers.value, raw));
        if result.Err? {
          TooMany(body, line, n + 1, rows, r, maxRows);
          return results, FileError(result.error);
        }
        results := results + [result.value];
      }
      rows := rows + [r];
    }
    assert body[..|body|] == body;
    end := TailEnd(tail, validator.rowCount);
  }

  lemma NineLong(headers: seq<string>)
    requires NineColumns(headers)
    ensures |headers| == 9 && Distinct(headers)
  {
  }

  lemma RowIs(headers: seq<string>, seen: set<string>, r: DataRow)
    requires NineColumns(headers)
    ensures |r.cells| != 9
            ==> ResultFor(headers, seen, r) == RowResult(r.number, None, [WidthIssue(r.number)])
                && Seen(seen, IdOf(headers, r)) == seen
    ensures |r.cells| == 9 ==>
              && HasColumns(Zip(headers, r.cells))
              && ResultFor(headers, seen, r) == ResultOf(Zip(headers, r.cells), seen, r.number)
              && IdOf(headers, r) == RecordId(Zip(headers, r.cells), r.number).0
  {
    hide ResultOf, RecordId, HasColumns, Zip;
    if |r.cells| == 9 {
      ZipHasColumns(headers, r.cells);
    }
  }

  lemma TooMany(records: seq<Record>, line: nat, n: nat, rows: seq<DataRow>, r: DataRow, maxRows: nat)
    requires n <= |records| && DataRows(records[..n], line) == rows + [r] && |rows| == maxRows
    ensures |DataRows(records, line)| > maxRows && DataRows(records, line)[..maxRows] == rows
  {
    hide DataRows;
    RowsPrefix(records, line, n);
    assert (rows + [r])[..maxRows] == rows;
  }

  // ----- What a file yields -----

  /** Each row of a file is one of its non-blank records, in their order, numbered by its first physical line. */
  lemma {:induction false} RowRecord(records: seq<Record>, line: nat, i: nat) returns (n: nat)
    requires i < |DataRows(records, line)|
    ensures n < |records| && !Blank(records[n].cells) && |DataRows(records[..n], line)| == i
    ensures DataRows(records, line)[i] == DataRow(line + LinesOf(records[..n]) + 1, records[n].cells)
  {
    hide Blank, LinesOf;
    var last := |records| - 1;
    if i < |DataRows(records[..last], line)| {
      n := RowRecord(records[..last], line, i);
      assert records[..last][..n] == records[..n];
    } else {
      n := last;
    }
  }

  /** And every non-blank record is such a row. */
  lemma {:induction false} RecordRow(records: seq<Record>, line: nat, n: nat)
    requires n < |records| && !Blank(records[n].cells)
    ensures |DataRows(records[..n], line)| < |DataRows(records, line)|
    ensures DataRows(records, line)[|DataRows(records[..n], line)|]
            == DataRow(line + LinesOf(records[..n]) + 1, records[n].cells)
  {
    hide Blank, LinesOf;
    var last := |records| - 1;
    if n < last {
      assert records[..last][..n] == records[..n];
      RecordRow(records[..last], line, n);
    }
  }

  /**
    A result is that of record `n`: it has the number of the record's first physical
    line, it is invalid unless the record has nine cells, and an accepted row has in
    each field what the cell under that field's header says.
   */
  ghost predicate ResultOfRecord(result: RowResult, records: seq<Record>, n: nat) {
    && 1 <= n < |records| && result.rowNumber == records[0].lines + LinesOf(records[1..n]) + 1
    && (|records[n].cells| != 9
        ==> result == RowResult(result.rowNumber, None,
                                [Issue(Some(result.rowNumber), WholeRow, RowColumnCountMismatch, ContractPhase)]))
    && (result.IsValid() ==>
          && ValidateSalesHeaders(records[0].cells).Ok? && |records[n].cells| == 9
          && FromColumns(result.row.value, Normalized(records[0].cells), records[n].cells, result.rowNumber))
  }

  /** Every result is that of one of the records, each of which takes at least one line. */
  ghost predicate FromRecords(results: seq<RowResult>, records: seq<Record>) {
    (forall r | r in records :: r.lines >= 1) ==> forall i | 0 <= i < |results| :: FromSomeRecord(results[i], records)
  }

  ghost predicate FromSomeRecord(result: RowResult, records: seq<Record>) {
    exists n :: ResultOfRecord(result, records, n)
  }

  /** Each field of the row is what the cell under its header says. */
  ghost predicate FromColumns(r: SalesRow, headers: seq<string>, cells: seq<string>, row: nat) {
    |headers| == |cells| && forall k | 0 <= k < |headers| :: FromCell(r, headers[k], cells[k], row)
  }

  predicate FromCell(r: SalesRow, header: string, cell: string, row: nat) {
    && (header == "source_record_id" ==> r.recordId == Strip(cell))
    && (header == "transaction_date" ==> DateField(cell, row).0 == Some(r.date))
    && (header == "product_code" ==> r.product == Upper(Strip(cell)))
    && (header == "territory_code" ==> r.territory == Upper(Strip(cell)))
    && (header == "hospital_code" ==> r.hospital == OptionalCode(cell))
    && (header == "sales_representative_code" ==> r.representative == OptionalCode(cell))
    && (header == "quantity" ==> DecimalField(cell, row, QuantityColumn, 18, 3).0 == Some(r.quantity))
    && (header == "revenue_amount" ==> DecimalField(cell, row, RevenueColumn, 20, 4).0 == Some(r.revenue))
    && (header == "currency_code" ==> r.currency == Upper(Strip(cell)))
  }

  lemma ZippedCells(r: SalesRow, headers: seq<string>, cells: seq<string>, row: nat)
    requires NineColumns(headers) && |cells| == 9 && HasColumns(Zip(headers, cells))
    requires FromCells(r, Zip(headers, cells), row)
    ensures FromColumns(r, headers, cells, row)
  {
    hide NineColumns, HasColumns, Strip, Upper, DateField, DecimalField, OptionalCode;
    NineLong(headers);
    ColumnNames(Zip(headers, cells));
    forall k | 0 <= k < |headers| ensures FromCell(r, headers[k], cells[k], row) {
      assert Zip(headers, cells)[headers[k]] == cells[k];
    }
  }

  lemma AcceptedHeaders(headers: seq<string>)
    requires ValidateSalesHeaders(headers).Ok?
    ensures ValidateSalesHeaders(headers).value == Normalized(headers)
  {
    hide Normalized, Duplicated, Expected, Actual;
  }

  lemma ReadFromRecord(records: seq<Record>, tail: Tail, maxRows: nat, i: nat)
    requires i < |Read(records, tail, maxRows).0| && forall r | r in records :: r.lines >= 1
    ensures FromSomeRecord(Read(records, tail, maxRows).0[i], records)
  {
    hide ValidateSalesHeaders, NineColumns, ResultFor, ResultsFor, DataRows, LinesOf, FromColumns, Normalized,
         SeenBefore, GoodResult;
    HeadersAccepted(records[0].cells);
    AcceptedHeaders(records[0].cells);
    var headers, line := ValidateSalesHeaders(records[0].cells).value, records[0].lines;
    var rows := DataRows(records[1..], line);
    var kept := if |rows| > maxRows then rows[..maxRows] else rows;
    var n := RowRecord(records[1..], line, i);
    assert records[1..][..n] == records[1..n + 1];
    RowNumbers(records[1..], line);
    assert rows[i] in rows;
    ResultAt(headers, kept, i);
    var result := ResultFor(headers, SeenBefore(headers, kept[..i]), rows[i]);
    ResultCells(headers, SeenBefore(headers, kept[..i]), rows[i]);
    assert ResultOfRecord(result, records, n + 1);
  }

  /** Every result of a file is that of one of its records. */
  lemma ReadFromRecords(records: seq<Record>, tail: Tail, maxRows: nat)
    ensures FromRecords(Read(records, tail, maxRows).0, records)
  {
    hide Read, FromSomeRecord;
    var results := Read(records, tail, maxRows).0;
    if forall r | r in records :: r.lines >= 1 {
      forall i | 0 <= i < |results| ensures FromSomeRecord(results[i], records) {
        ReadFromRecord(records, tail, maxRows, i);
      }
    }
  }

  lemma ResultCells(headers: seq<string>, seen: set<string>, r: DataRow)
    requires NineColumns(headers) && r.number >= 2
    ensures ResultFor(headers, seen, r).rowNumber == r.number
    ensures |r.cells| != 9
            ==> ResultFor(headers, seen, r)
                == RowResult(r.number, None, [Issue(Some(r.number), WholeRow, RowColumnCountMismatch, ContractPhase)])
    ensures ResultFor(headers, seen, r).IsValid() ==>
              |r.cells| == 9 && FromColumns(ResultFor(headers, seen, r).row.value, headers, r.cells, r.number)
  {
    hide NineColumns, ResultOf, HasColumns, Zip, FromColumns, GoodResult, FlaggedDuplicate, IdOf, RecordId, FromCells;
    FlaggedIff(headers, seen, r);
    RowIs(headers, seen, r);
    if |r.cells| == 9 && ResultFor(headers, seen, r).IsValid() {
      NineLong(headers);
      AcceptedFromCells(Zip(headers, r.cells), seen, r.number);
      ZippedCells(ResultFor(headers, seen, r).row.value, headers, r.cells, r.number);
    }
  }

  /** A record is skipped exactly when all its cells are whitespace. */
  lemma BlankMeans(cells: seq<string>)
    ensures Blank(cells) <==> forall k | 0 <= k < |cells| :: CellMeaning.Whitespace(cells[k])
  {
    hide Strip, CellMeaning.Whitespace;
    forall k | 0 <= k < |cells| ensures Strip(cells[k]) == [] <==> CellMeaning.Whitespace(cells[k]) {
      CellMeaning.BlankText(cells[k]);
    }
  }

  lemma {:induction false} ResultAt(headers: seq<string>, rows: seq<DataRow>, i: nat)
    requires NineColumns(headers) && i < |rows|
    ensures ResultsFor(headers, rows)[i] == ResultFor(headers, SeenBefore(headers, rows[..i]), rows[i])
  {
    hide NineColumns, ResultFor, SeenBefore;
    if i < |rows| - 1 {
      assert rows[..|rows| - 1][..i] == rows[..i];
      ResultAt(headers, rows[..|rows| - 1], i);
    }
  }

  lemma {:induction false} SeenMeans(headers: seq<string>, rows: seq<DataRow>, id: string)
    requires NineColumns(headers)
    ensures id in SeenBefore(headers, rows) <==> exists k | 0 <= k < |rows| :: IdOf(headers, rows[k]) == Some(id)
  {
    hide NineColumns, IdOf;
    if rows != [] {
      var n := |rows| - 1;
      SeenMeans(headers, rows[..n], id);
      if k :| 0 <= k < n && IdOf(headers, rows[..n][k]) == Some(id) {
        assert IdOf(headers, rows[k]) == Some(id);
      }
      if k :| 0 <= k < |rows| && IdOf(headers, rows[k]) == Some(id) {
        assert k < n ==> IdOf(headers, rows[..n][k]) == Some(id);
      }
    }
  }

  predicate FlaggedDuplicate(r: RowResult) {
    exists i | i in r.issues :: i.code == DuplicateSourceRecordId
  }

  lemma FlaggedIff(headers: seq<string>, seen: set<string>, r: DataRow)
    requires NineColumns(headers) && r.number >= 2
    ensures FlaggedDuplicate(ResultFor(headers, seen, r)) <==> IdOf(headers, r).Some? && IdOf(headers, r).value in seen
    ensures GoodResult(ResultFor(headers, seen, r)) && ResultFor(headers, seen, r).rowNumber == r.number
    ensures ResultFor(headers, seen, r).IsValid() ==>
              IdOf(headers, r) == Some(ResultFor(headers, seen, r).row.value.recordId)
              && IdOf(headers, r).value !in seen
  {
    hide NineColumns, ResultOf, Zip, RecordId, StagedRowConstraints, HasColumns;
    NineLong(headers);
    RowIs(headers, seen, r);
    if |r.cells| == 9 {
      ResultIsGood(Zip(headers, r.cells), seen, r.number);
    }
  }

  /** A row is flagged exactly when an earlier row of the right width, valid or not, had the same trimmed id. */
  lemma DuplicatesFlagged(headers: seq<string>, rows: seq<DataRow>, i: nat)
    requires NineColumns(headers) && i < |rows| && rows[i].number >= 2
    ensures FlaggedDuplicate(ResultsFor(headers, rows)[i])
            <==> IdOf(headers, rows[i]).Some?
                 && exists k | 0 <= k < i :: IdOf(headers, rows[k]) == IdOf(headers, rows[i])
  {
    hide NineColumns, ResultFor, SeenBefore, IdOf, FlaggedDuplicate;
    ResultAt(headers, rows, i);
    FlaggedIff(headers, SeenBefore(headers, rows[..i]), rows[i]);
    var id := IdOf(headers, rows[i]);
    if id.Some? {
      SeenMeans(headers, rows[..i], id.value);
      assert forall k | 0 <= k < i :: rows[..i][k] == rows[k];
    }
  }

  /** Accepted rows have distinct ids, because every earlier id is remembered. */
  lemma ValidDistinct(headers: seq<string>, rows: seq<DataRow>, i: nat, k: nat)
    requires NineColumns(headers) && i < k < |rows| && rows[i].number >= 2 && rows[k].number >= 2
    requires ResultsFor(headers, rows)[i].IsValid() && ResultsFor(headers, rows)[k].IsValid()
    ensures ResultsFor(headers, rows)[i].row.value.recordId != ResultsFor(headers, rows)[k].row.value.recordId
  {
    hide NineColumns, ResultFor, SeenBefore, IdOf, FlaggedDuplicate, GoodResult;
    ResultAt(headers, rows, i);
    ResultAt(headers, rows, k);
    FlaggedIff(headers, SeenBefore(headers, rows[..i]), rows[i]);
    FlaggedIff(headers, SeenBefore(headers, rows[..k]), rows[k]);
    SeenMeans(headers, rows[..k], IdOf(headers, rows[i]).value);
    assert rows[..k][i] == rows[i];
  }

  lemma ResultsGood(headers: seq<string>, rows: seq<DataRow>)
    requires NineColumns(headers) && Increasing(rows) && forall r | r in rows :: r.number >= 2
    ensures GoodResults(ResultsFor(headers, rows))
    ensures forall i | 0 <= i < |rows| :: ResultsFor(headers, rows)[i].rowNumber == rows[i].number
  {
    hide NineColumns, ResultFor, SeenBefore, IdOf, FlaggedDuplicate, GoodResult, ResultsFor;
    var results := ResultsFor(headers, rows);
    forall i | 0 <= i < |rows| ensures GoodResult(results[i]) && results[i].rowNumber == rows[i].number {
      assert rows[i] in rows;
      ResultAt(headers, rows, i);
      FlaggedIff(headers, SeenBefore(headers, rows[..i]), rows[i]);
    }
    forall i, k | 0 <= i < k < |rows| && results[i].IsValid() && results[k].IsValid()
      ensures results[i].row.value.recordId != results[k].row.value.recordId
    {
      assert rows[i] in rows && rows[k] in rows;
      ValidDistinct(headers, rows, i, k);
    }
  }

  /**
    Every file, however malformed, yields what staging requires: one result per
    non-blank record up to the limit, with increasing row numbers, distinct
    accepted ids, and rows that meet the table constraints.
   */
  lemma ReadIsGood(records: seq<Record>, tail: Tail, maxRows: nat)
    requires maxRows >= 1 && forall r | r in records :: r.lines >= 1
    ensures GoodResults(Read(records, tail, maxRows).0) && Staging.GoodEnd(Read(records, tail, maxRows).1)
    ensures |Read(records, tail, maxRows).0| <= maxRows
    ensures Read(records, tail, maxRows).1 == Finished ==> Read(records, tail, maxRows).0 != []
  {
    hide ValidateSalesHeaders, NineColumns, ResultFor, ResultsFor, GoodResult, Increasing, DataRows;
    if records != [] {
      var headers := ValidateSalesHeaders(records[0].cells);
      if headers.Ok? {
        HeadersAccepted(records[0].cells);
        assert records[0] in records;
        RowNumbers(records[1..], records[0].lines);
        var rows := DataRows(records[1..], records[0].lines);
        var kept := if |rows| > maxRows then rows[..maxRows] else rows;
        KeptIncreasing(rows, |kept|);
        assert rows[..|kept|] == kept;
        ResultsGood(headers.value, kept);
      } else {
        HeaderCodes(records[0].cells);
      }
    }
  }

  lemma KeptIncreasing(rows: seq<DataRow>, n: nat)
    requires Increasing(rows) && n <= |rows|
    ensures Increasing(rows[..n])
  {
  }

  lemma HeaderCodes(headers: seq<string>)
    ensures ValidateSalesHeaders(headers).Err? ==> ContractCode(ValidateSalesHeaders(headers).error)
  {
    hide Duplicated, Normalized, Expected, Actual;
  }

  /** How a file ends, and when it yields nothing: the refusals of header, size and encoding, with their codes. */
  lemma FileEnds(records: seq<Record>, tail: Tail, maxRows: nat)
    ensures var (results, end) := Read(records, tail, maxRows);
            if records != [] && ValidateSalesHeaders(records[0].cells).Err?
            then results == [] && end == FileError(ValidateSalesHeaders(records[0].cells).error)
            else
              var rows := if records == [] then 0 else |DataRows(records[1..], records[0].lines)|;
              && |results| == (if rows > maxRows then maxRows else rows)
              && (rows > maxRows ==> end == FileError(FileRowLimitExceeded))
              && (rows <= maxRows && tail == MalformedCsv ==> end == FileError(CsvMalformed))
              && (rows <= maxRows && tail == UndecodableBytes ==> end == Undecodable)
              && (rows <= maxRows && tail == EndOfFile
                  ==> end == if rows == 0 then FileError(FileNoDataRows) else Finished)
  {
    hide ValidateSalesHeaders, NineColumns, DataRows, ResultFor, SeenBefore;
    if records != [] && ValidateSalesHeaders(records[0].cells).Ok? {
      HeadersAccepted(records[0].cells);
    }
  }

  // ----- The order of the columns -----

  predicate IsPermutation(p: seq<nat>) {
    |p| == 9 && (forall i | 0 <= i < 9 :: p[i] < 9) && forall i, j | 0 <= i < j < 9 :: p[i] != p[j]
  }

  /** The same columns in another order; rows of any other width stay as they are. */
  function Permuted(cells: seq<string>, p: seq<nat>): (r: seq<string>)
    requires IsPermutation(p)
    ensures |r| == |cells|
  {
    if |cells| == 9 then seq(9, i requires 0 <= i < 9 => cells[p[i]]) else cells
  }

  function Below(n: nat): (r: set<nat>)
    ensures |r| == n && forall i: nat :: i in r <==> i < n
  {
    if n == 0 then {} else Below(n - 1) + {n - 1}
  }

  function Image(p: seq<nat>): (r: set<nat>)
    ensures forall i: nat :: i in r <==> i in p
  {
    set i | i in p
  }

  lemma {:induction false} ImageSize(p: seq<nat>)
    requires forall i, j | 0 <= i < j < |p| :: p[i] != p[j]
    ensures |Image(p)| == |p|
  {
    if p != [] {
      var n := |p| - 1;
      ImageSize(p[..n]);
      assert p == p[..n] + [p[n]];
      assert Image(p) == Image(p[..n]) + {p[n]};
    }
  }

  lemma PigeonHole(p: seq<nat>, n: nat, x: nat)
    requires |p| == n && (forall i | 0 <= i < n :: p[i] < n) && (forall i, j | 0 <= i < j < n :: p[i] != p[j]) && x < n
    ensures x in p
  {
    ImageSize(p);
    assert Image(p) <= Below(n);
    assert Below(n) == (Below(n) - Image(p)) + Image(p);
    assert |Below(n) - Image(p)| == 0;
  }

  lemma Preimage(p: seq<nat>, k: nat) returns (i: nat)
    requires IsPermutation(p) && k < 9
    ensures i < 9 && p[i] == k
  {
    PigeonHole(p, 9, k);
    i :| 0 <= i < 9 && p[i] == k;
  }

  lemma PermutedAt(cells: seq<string>, p: seq<nat>, i: nat)
    requires |cells| == 9 && IsPermutation(p) && i < 9
    ensures |p| == 9 && p[i] < 9 && Permuted(cells, p)[i] == cells[p[i]]
  {
  }

  lemma PermutedDistinct(headers: seq<string>, p: seq<nat>)
    requires |headers| == 9 && Distinct(headers) && IsPermutation(p)
    ensures Distinct(Permuted(headers, p))
  {
    forall i, j | 0 <= i < j < 9 ensures Permuted(headers, p)[i] != Permuted(headers, p)[j] {
      assert p[i] != p[j];
    }
  }

  lemma ZipAt(headers: seq<string>, cells: seq<string>, i: nat)
    requires |headers| == |cells| && Distinct(headers) && i < |headers|
    ensures headers[i] in Zip(headers, cells) && Zip(headers, cells)[headers[i]] == cells[i]
  {
  }

  lemma ZipKey(headers: seq<string>, cells: seq<string>, x: string) returns (i: nat)
    requires |headers| == |cells| && Distinct(headers) && x in Zip(headers, cells)
    ensures i < |headers| && headers[i] == x
  {
    i :| 0 <= i < |headers| && headers[i] == x;
  }

  /** Permuting header and cells together does not change the values by name. */
  lemma SameValues(headers: seq<string>, cells: seq<string>, p: seq<nat>)
    requires |headers| == 9 && Distinct(headers) && |cells| == 9 && IsPermutation(p)
    ensures Distinct(Permuted(headers, p)) && Zip(Permuted(headers, p), Permuted(cells, p)) == Zip(headers, cells)
  {
    hide Distinct, IsPermutation, Permuted, Zip;
    PermutedDistinct(headers, p);
    var h, c := Permuted(headers, p), Permuted(cells, p);
    forall x | x in Zip(h, c) ensures x in Zip(headers, cells) && Zip(h, c)[x] == Zip(headers, cells)[x] {
      var i := ZipKey(h, c, x);
      PermutedAt(headers, p, i);
      PermutedAt(cells, p, i);
      ZipAt(h, c, i);
      ZipAt(headers, cells, p[i]);
    }
    forall x | x in Zip(headers, cells) ensures x in Zip(h, c) {
      var k := ZipKey(headers, cells, x);
      var i := Preimage(p, k);
      PermutedAt(headers, p, i);
      ZipAt(h, c, i);
    }
  }

  lemma PermutedColumns(headers: seq<string>, p: seq<nat>)
    requires NineColumns(headers) && IsPermutation(p)
    ensures NineColumns(Permuted(headers, p))
  {
    hide ColumnName;
    SameValues(headers, headers, p);
    forall c: Column | DataColumn(c) ensures ColumnName(c) in Permuted(headers, p) {
      var k :| 0 <= k < 9 && headers[k] == ColumnName(c);
      var i := Preimage(p, k);
      assert Permuted(headers, p)[i] == ColumnName(c);
    }
  }

  function PermutedRow(r: DataRow, p: seq<nat>): DataRow
    requires IsPermutation(p)
  {
    r.(cells := Permuted(r.cells, p))
  }

  function PermutedRows(rows: seq<DataRow>, p: seq<nat>): seq<DataRow>
    requires IsPermutation(p)
  {
    seq(|rows|, i requires 0 <= i < |rows| => PermutedRow(rows[i], p))
  }

  lemma SameRow(headers: seq<string>, seen: set<string>, r: DataRow, p: seq<nat>)
    requires IsPermutation(p) && NineColumns(headers) && NineColumns(Permuted(headers, p))
    ensures ResultFor(Permuted(headers, p), seen, PermutedRow(r, p)) == ResultFor(headers, seen, r)
    ensures IdOf(Permuted(headers, p), PermutedRow(r, p)) == IdOf(headers, r)
  {
    hide NineColumns, ResultOf, RecordId, HasColumns, Zip;
    var r' := PermutedRow(r, p);
    NineLong(headers);
    RowIs(headers, seen, r);
    RowIs(Permuted(headers, p), seen, r');
    if |r.cells| == 9 {
      SameValues(headers, r.cells, p);
    }
  }

  /**
    Reordering the columns of a file leaves its results unchanged, including the
    order of issues and the duplicate flags.
   */
  lemma {:induction false} ColumnOrderIrrelevant(headers: seq<string>, rows: seq<DataRow>, p: seq<nat>)
    requires NineColumns(headers) && IsPermutation(p) && NineColumns(Permuted(headers, p))
    ensures ResultsFor(Permuted(headers, p), PermutedRows(rows, p)) == ResultsFor(headers, rows)
    ensures SeenBefore(Permuted(headers, p), PermutedRows(rows, p)) == SeenBefore(headers, rows)
  {
    hide NineColumns, ResultFor, IdOf, IsPermutation, Permuted;
    if rows != [] {
      var n := |rows| - 1;
      assert PermutedRows(rows, p)[..n] == PermutedRows(rows[..n], p);
      ColumnOrderIrrelevant(headers, rows[..n], p);
      SameRow(headers, SeenBefore(headers, rows[..n]), rows[n], p);
    }
  }

  function PermutedRecords(records: seq<Record>, p: seq<nat>): seq<Record>
    requires IsPermutation(p)
  {
    seq(|records|, i requires 0 <= i < |records| => records[i].(cells := Permuted(records[i].cells, p)))
  }

  lemma BlankPermuted(cells: seq<string>, p: seq<nat>)
    requires IsPermutation(p)
    ensures Blank(Permuted(cells, p)) <==> Blank(cells)
  {
    if |cells| == 9 {
      forall c | c in cells ensures c in Permuted(cells, p) {
        var k :| 0 <= k < 9 && cells[k] == c;
        var i := Preimage(p, k);
        assert Permuted(cells, p)[i] == c;
      }
    }
  }

  lemma {:induction false} RowsPermuted(records: seq<Record>, line: nat, p: seq<nat>)
    requires IsPermutation(p)
    ensures DataRows(PermutedRecords(records, p), line) == PermutedRows(DataRows(records, line), p)
    ensures LinesOf(PermutedRecords(records, p)) == LinesOf(records)
  {
    hide Blank, IsPermutation, Permuted, DataRows, LinesOf;
    NothingRead(line);
    if records != [] {
      var n, permuted := |records| - 1, PermutedRecords(records, p);
      assert permuted[..n] == PermutedRecords(records[..n], p) && permuted[..n + 1] == permuted
             && records[..n + 1] == records;
      RowsPermuted(records[..n], line, p);
      BlankPermuted(records[n].cells, p);
      NextRow(records, line, n);
      NextRow(permuted, line, n);
    }
  }

  lemma NothingRead(line: nat)
    ensures DataRows([], line) == [] && LinesOf([]) == 0
  {
  }

  lemma SameNames(headers: seq<string>, p: seq<nat>)
    requires |headers| == 9 && IsPermutation(p)
    ensures forall x :: x in Permuted(headers, p) <==> x in headers
  {
    hide IsPermutation;
    forall x | x in headers ensures x in Permuted(headers, p) {
      var k :| 0 <= k < 9 && headers[k] == x;
      var i := Preimage(p, k);
      PermutedAt(headers, p, i);
    }
    forall x | x in Permuted(headers, p) ensures x in headers {
      var i :| 0 <= i < 9 && Permuted(headers, p)[i] == x;
      PermutedAt(headers, p, i);
    }
  }

  /** A reordering of an accepted header is accepted. */
  lemma PermutedAccepted(first: seq<string>, other: seq<string>, p: seq<nat>)
    requires IsPermutation(p) && ValidateSalesHeaders(first).Ok? && Normalized(other) == Permuted(Normalized(first), p)
    ensures ValidateSalesHeaders(other) == Ok(Permuted(ValidateSalesHeaders(first).value, p))
    ensures NineColumns(ValidateSalesHeaders(first).value)
            && NineColumns(Permuted(ValidateSalesHeaders(first).value, p))
  {
    hide IsPermutation, Permuted, ColumnName, Expected, Normalized;
    HeadersAccepted(first);
    var h, h' := Normalized(first), Permuted(Normalized(first), p);
    PermutedColumns(h, p);
    SameNames(h, p);
    DistinctOnce(h');
    NoDuplicates(h');
    assert Actual(h') == Actual(h);
  }

  /**
    For whole files: reordering the columns of an accepted file, with or without a
    byte-order mark before its first column, changes neither acceptance nor any result.
   */
  lemma FileColumnOrderIrrelevant(first: Record, other: Record, body: seq<Record>, tail: Tail, maxRows: nat,
                                  p: seq<nat>)
    requires IsPermutation(p) && other.lines == first.lines
    requires ValidateSalesHeaders(first.cells).Ok? && Normalized(other.cells) == Permuted(Normalized(first.cells), p)
    ensures ValidateSalesHeaders(other.cells).Ok?
    ensures Read([other] + PermutedRecords(body, p), tail, maxRows) == Read([first] + body, tail, maxRows)
  {
    hide ValidateSalesHeaders, NineColumns, IsPermutation, Permuted, ResultsFor, DataRows, Normalized;
    PermutedAccepted(first.cells, other.cells, p);
    var headers := ValidateSalesHeaders(first.cells).value;
    assert ([first] + body)[1..] == body && ([other] + PermutedRecords(body, p))[1..] == PermutedRecords(body, p);
    RowsPermuted(body, first.lines, p);
    var rows := DataRows(body, first.lines);
    ColumnOrderIrrelevant(headers, rows, p);
    if |rows| > maxRows {
      assert PermutedRows(rows, p)[..maxRows] == PermutedRows(rows[..maxRows], p);
      ColumnOrderIrrelevant(headers, rows[..maxRows], p);
    }
  }
}
