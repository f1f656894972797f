/** What a row of cells means: where each field of an accepted row comes from, and exactly which rows are accepted. */
module RowMeaning {
  import opened Results
  import opened Text
  import opened Tables
  import opened SalesRows
  import opened SalesHeaders
  import opened SalesContract
  import opened CellMeaning

  lemma ColumnNames(values: Values)
    requires HasColumns(values)
    ensures "source_record_id" in values && Value(values, SourceRecordIdColumn) == values["source_record_id"]
    ensures "transaction_date" in values && Value(values, TransactionDateColumn) == values["transaction_date"]
    ensures "product_code" in values && Value(values, ProductColumn) == values["product_code"]
    ensures "territory_code" in values && Value(values, TerritoryColumn) == values["territory_code"]
    ensures "hospital_code" in values && Value(values, HospitalColumn) == values["hospital_code"]
    ensures "sales_representative_code" in values
            && Value(values, RepresentativeColumn) == values["sales_representative_code"]
    ensures "quantity" in values && Value(values, QuantityColumn) == values["quantity"]
    ensures "revenue_amount" in values && Value(values, RevenueColumn) == values["revenue_amount"]
    ensures "currency_code" in values && Value(values, CurrencyColumn) == values["currency_code"]
  {
    assert forall c: Column :: DataColumn(c) ==> ColumnName(c) in values;
    assert DataColumn(SourceRecordIdColumn) && DataColumn(TransactionDateColumn) && DataColumn(ProductColumn);
    assert DataColumn(TerritoryColumn) && DataColumn(HospitalColumn) && DataColumn(RepresentativeColumn);
    assert DataColumn(QuantityColumn) && DataColumn(RevenueColumn) && DataColumn(CurrencyColumn);
  }

  /** An optional code: absent when the cell is blank. */
  function OptionalCode(cell: string): Option<string> {
    if Strip(cell) == [] then None else Some(Upper(Strip(cell)))
  }

  /** Each field of the row is what the cell of its own column says. */
  predicate FromCells(r: SalesRow, values: Values, row: nat)
    requires HasColumns(values)
  {
    ColumnNames(values);
    && r.recordId == Strip(values["source_record_id"])
    && DateField(values["transaction_date"], row).0 == Some(r.date)
    && r.product == Upper(Strip(values["product_code"]))
    && r.territory == Upper(Strip(values["territory_code"]))
    && r.hospital == OptionalCode(values["hospital_code"])
    && r.representative == OptionalCode(values["sales_representative_code"])
    && DecimalField(values["quantity"], row, QuantityColumn, 18, 3).0 == Some(r.quantity)
    && DecimalField(values["revenue_amount"], row, RevenueColumn, 20, 4).0 == Some(r.revenue)
    && r.currency == Upper(Strip(values["currency_code"]))
  }

  lemma TextValue(raw: string, row: nat, column: Column, required: bool, maxLength: nat, uppercase: bool)
    ensures TextField(raw, row, column, required, maxLength, uppercase).0
            == if Strip(raw) == [] then None else Some(if uppercase then Upper(Strip(raw)) else Strip(raw))
  {
    TextMeans(raw, row, column, required, maxLength, uppercase,
              Issue(None, WholeRow, RequiredValueMissing, ContractPhase));
  }

  /** Every field of an accepted row comes from the cell of its own column. */
  lemma AcceptedFromCells(values: Values, seen: set<string>, row: nat)
    requires HasColumns(values) && ResultOf(values, seen, row).IsValid()
    ensures FromCells(ResultOf(values, seen, row).row.value, values, row)
  {
    hide HasColumns, Value, TextField, DateField, DecimalField, RowIssues, Strip, Upper;
    ColumnNames(values);
    NoIssuesComplete(values, seen, row);
    TextValue(values["source_record_id"], row, SourceRecordIdColumn, true, 255, false);
    TextValue(values["product_code"], row, ProductColumn, true, 64, true);
    TextValue(values["territory_code"], row, TerritoryColumn, true, 64, true);
    TextValue(values["hospital_code"], row, HospitalColumn, false, 64, true);
    TextValue(values["sales_representative_code"], row, RepresentativeColumn, false, 64, true);
    TextValue(Strip(values["currency_code"]), row, CurrencyColumn, true, 3, true);
  }

  /** Which issues a row has: those of its cells, and four of the row as a whole. */
  lemma RowIssueMeans(values: Values, seen: set<string>, row: nat, i: Issue)
    requires HasColumns(values)
    ensures "source_record_id" in values && "transaction_date" in values && "product_code" in values
            && "territory_code" in values && "hospital_code" in values && "sales_representative_code" in values
            && "quantity" in values && "revenue_amount" in values && "currency_code" in values
    ensures i in RowIssues(values, seen, row) <==>
              || i in TextField(values["source_record_id"], row, SourceRecordIdColumn, true, 255, false).1
              || i in DateField(values["transaction_date"], row).1
              || i in TextField(values["product_code"], row, ProductColumn, true, 64, true).1
              || i in TextField(values["territory_code"], row, TerritoryColumn, true, 64, true).1
              || i in TextField(values["hospital_code"], row, HospitalColumn, false, 64, true).1
              || i in TextField(values["sales_representative_code"], row, RepresentativeColumn, false, 64, true).1
              || i in DecimalField(values["quantity"], row, QuantityColumn, 18, 3).1
              || i in DecimalField(values["revenue_amount"], row, RevenueColumn, 20, 4).1
              || i in TextField(Strip(values["currency_code"]), row, CurrencyColumn, true, 3, true).1
              || WholeRowIssue(values, seen, row, i)
  {
    hide HasColumns, Value, TextField, DateField, DecimalField, Strip, Upper, WrongCurrency, SignMismatch, Duplicate,
         WholeRowIssue;
    ColumnNames(values);
    InJoined(RecordId(values, row).1, DateField(Value(values, TransactionDateColumn), row).1,
             Code(values, row, ProductColumn, true).1, i);
    InJoined(Code(values, row, TerritoryColumn, true).1, Code(values, row, HospitalColumn, false).1,
             Code(values, row, RepresentativeColumn, false).1, i);
    InJoined(Quantity(values, row).1, Revenue(values, row).1, CurrencyCode(values, row).1, i);
    InJoined(LeadingIssues(values, row), PlaceIssues(values, row), MeasureIssues(values, row), i);
    WholeRowIssues(values, seen, row, i);
    InRowIssues(values, seen, row, i);
  }

  lemma InJoined(a: seq<Issue>, b: seq<Issue>, c: seq<Issue>, i: Issue)
    ensures i in Joined(a, b, c) <==> i in a || i in b || i in c
  {
  }

  lemma InRowIssues(values: Values, seen: set<string>, row: nat, i: Issue)
    requires HasColumns(values)
    ensures var f := FieldsOf(values, row);
            i in RowIssues(values, seen, row) <==>
              || i in FieldIssues(values, row) || i in CrossIssues(f, CurrencyText(values), row)
              || i in IssueWhen(Duplicate(f.recordId, seen), row, SourceRecordIdColumn, DuplicateSourceRecordId)
  {
    hide HasColumns, FieldsOf, FieldIssues, CrossIssues, CurrencyText, IssueWhen;
  }

  /** The issues that compare cells: a currency that is no code, no quantity, opposite signs, and a repeated id. */
  predicate WholeRowIssue(values: Values, seen: set<string>, row: nat, i: Issue)
    requires HasColumns(values)
  {
    ColumnNames(values);
    var currency := Strip(values["currency_code"]);
    var quantity := DecimalField(values["quantity"], row, QuantityColumn, 18, 3).0;
    var revenue := DecimalField(values["revenue_amount"], row, RevenueColumn, 20, 4).0;
    && i.row == Some(row) && i.phase == ContractPhase
    && match i.code
       case CurrencyCodeInvalid =>
         && i.column == CurrencyColumn && currency != []
         && !(|currency| == 3 && forall c | c in currency :: 'A' <= c <= 'Z' || 'a' <= c <= 'z')
       case QuantityZero => i.column == QuantityColumn && quantity == Some(0)
       case MeasureSignMismatch =>
         && i.column == RevenueColumn && quantity.Some? && revenue.Some?
         && ((quantity.value > 0 && revenue.value < 0) || (quantity.value < 0 && revenue.value > 0))
       case DuplicateSourceRecordId =>
         && i.column == SourceRecordIdColumn && Strip(values["source_record_id"]) != []
         && Strip(values["source_record_id"]) in seen
       case _ => false
  }

  lemma Stripped(s: string)
    ensures Strip(Strip(s)) == Strip(s)
  {
  }

  lemma CurrencyMeans(raw: string)
    ensures var text := Strip(raw);
            WrongCurrency(if text == [] then None else Some(Upper(text)), text)
            <==> text != [] && !(|text| == 3 && forall c | c in text :: 'A' <= c <= 'Z' || 'a' <= c <= 'z')
  {
    hide Strip;
    var text := Strip(raw);
    UpperLetters(text);
  }

  lemma UpperLetters(s: string)
    ensures (forall c | c in Upper(s) :: 'A' <= c <= 'Z') <==> forall c | c in s :: 'A' <= c <= 'Z' || 'a' <= c <= 'z'
  {
    if forall c | c in Upper(s) :: 'A' <= c <= 'Z' {
      forall c | c in s ensures 'A' <= c <= 'Z' || 'a' <= c <= 'z' {
        var k :| 0 <= k < |s| && s[k] == c;
        assert Upper(s)[k] in Upper(s);
      }
    }
    if forall c | c in s :: 'A' <= c <= 'Z' || 'a' <= c <= 'z' {
      forall c | c in Upper(s) ensures 'A' <= c <= 'Z' {
        var k :| 0 <= k < |s| && Upper(s)[k] == c;
        assert s[k] in s;
      }
    }
  }

  lemma WholeRowIssues(values: Values, seen: set<string>, row: nat, i: Issue)
    requires HasColumns(values)
    ensures var f := FieldsOf(values, row);
            WholeRowIssue(values, seen, row, i)
            <==> i in CrossIssues(f, CurrencyText(values), row)
                 || i in IssueWhen(Duplicate(f.recordId, seen), row, SourceRecordIdColumn, DuplicateSourceRecordId)
  {
    hide HasColumns, Value, TextField, DateField, DecimalField, Strip, Upper, WrongCurrency;
    ColumnNames(values);
    Stripped(values["currency_code"]);
    TextValue(values["source_record_id"], row, SourceRecordIdColumn, true, 255, false);
    TextValue(Strip(values["currency_code"]), row, CurrencyColumn, true, 3, true);
    CurrencyMeans(values["currency_code"]);
  }
}
