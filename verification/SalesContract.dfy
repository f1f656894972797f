/** The row contract: what one row of text cells means, and which issues it has. */
module SalesContract {
  import opened Results
  import opened Text
  import opened Tables
  import opened SalesRows
  import opened SalesHeaders
  import Gregorian

  // ----- Single values -----

  predicate IsControl(c: char) {
    c as int < 32 || c as int == 127
  }

  function RowIssue(row: nat, column: Column, code: IssueCode): Issue {
    Issue(Some(row), column, code, ContractPhase)
  }

  function IssueWhen(wrong: bool, row: nat, column: Column, code: IssueCode): seq<Issue> {
    if wrong then [RowIssue(row, column, code)] else []
  }

  /** `_text`: the normalised value and its issues. */
  function TextField(raw: string, row: nat, column: Column, required: bool, maxLength: nat,
                     uppercase: bool): (r: (Option<string>, seq<Issue>))
    ensures r.0.None? <==> Strip(raw) == []
    ensures r.0.None? && required ==> r.1 != []
    ensures r.0.Some? ==> r.0.value != [] && Trimmed(r.0.value) && (uppercase ==> Uppercase(r.0.value))
    ensures r.0.Some? && r.1 == [] ==> |r.0.value| <= maxLength
  {
    var value := Strip(raw);
    if value == [] then (None, IssueWhen(required, row, column, RequiredValueMissing))
    else
      UpperTrimmed(value);
      var text := if uppercase then Upper(value) else value;
      (Some(text), IssueWhen(|text| > maxLength, row, column, ValueTooLong)
                   + IssueWhen(exists c | c in text :: IsControl(c), row, column, InvalidControlCharacter))
  }

  predicate AllDigits(s: string) {
    forall c | c in s :: IsDigit(c)
  }

  function Number(s: string): nat
    requires AllDigits(s)
  {
    if s == [] then 0
    else
      assert s[|s| - 1] in s;
      Number(s[..|s| - 1]) * 10 + (s[|s| - 1] as int - '0' as int)
  }

  predicate IsoPattern(s: string) {
    |s| == 10 && s[4] == '-' && s[7] == '-' && AllDigits(s[..4]) && AllDigits(s[5..7]) && AllDigits(s[8..])
  }

  function IsoDate(s: string): Gregorian.Date
    requires IsoPattern(s)
  {
    Gregorian.Date(Number(s[..4]), Number(s[5..7]), Number(s[8..]))
  }

  /** `_date`: a real date in YYYY-MM-DD form, up to year 9998. */
  function DateField(raw: string, row: nat): (r: (Option<Day>, seq<Issue>))
    ensures r.0.Some? <==> r.1 == []
    ensures r.0.Some?
            <==> IsoPattern(Strip(raw)) && Gregorian.IsDate(IsoDate(Strip(raw))) && IsoDate(Strip(raw)).year <= 9998
    ensures r.0.Some? ==> r.0.value == Gregorian.Ordinal(IsoDate(Strip(raw)))
  {
    var value := Strip(raw);
    if value == [] then (None, [RowIssue(row, TransactionDateColumn, RequiredValueMissing)])
    else if !IsoPattern(value) then (None, [RowIssue(row, TransactionDateColumn, DateInvalidFormat)])
    else
      var date := IsoDate(value);
      if !Gregorian.IsDate(date) then (None, [RowIssue(row, TransactionDateColumn, DateInvalidFormat)])
      else if date.year > 9998 then (None, [RowIssue(row, TransactionDateColumn, DateInvalidFormat)])
      else (Some(Gregorian.Ordinal(date)), [])
  }

  datatype DecimalText = DecimalText(negative: bool, whole: string, fraction: string)

  function DotIndex(s: string): (i: nat)
    ensures i <= |s| && (i < |s| ==> s[i] == '.')
  {
    if s == [] || s[0] == '.' then 0 else 1 + DotIndex(s[1..])
  }

  /** An optional minus, digits, and optionally a point with more digits. */
  function ParseDecimal(s: string): (r: Option<DecimalText>)
    ensures r.Some? ==> AllDigits(r.value.whole) && AllDigits(r.value.fraction) && r.value.whole != []
  {
    var negative := s != [] && s[0] == '-';
    var body := if negative then s[1..] else s;
    var dot := DotIndex(body);
    var whole, fraction := body[..dot], if dot < |body| then body[dot + 1..] else [];
    if whole == [] || !AllDigits(whole) || !AllDigits(fraction) || (dot < |body| && fraction == []) then None
    else Some(DecimalText(negative, whole, fraction))
  }

  function WithoutLeadingZeros(s: string): string {
    if s != [] && s[0] == '0' then WithoutLeadingZeros(s[1..]) else s
  }

  function Power10(n: nat): (p: nat)
    ensures p >= 1
  {
    if n == 0 then 1 else 10 * Power10(n - 1)
  }

  /** The value in units of the last allowed decimal place. */
  function Scaled(text: DecimalText, places: nat): int
    requires AllDigits(text.whole) && AllDigits(text.fraction) && |text.fraction| <= places
  {
    var magnitude := Number(text.whole) * Power10(places) + Number(text.fraction) * Power10(places - |text.fraction|);
    if text.negative then -magnitude else magnitude
  }

  /** `_decimal`, within `maxDigits` digits of which at most `places` follow the point. */
  function DecimalField(raw: string, row: nat, column: Column, maxDigits: nat,
                        places: nat): (r: (Option<int>, seq<Issue>))
    requires places <= maxDigits
    ensures r.0.Some? <==> r.1 == []
  {
    var value := Strip(raw);
    if value == [] then (None, [RowIssue(row, column, RequiredValueMissing)])
    else if |value| > 64 then (None, [RowIssue(row, column, DecimalPrecisionExceeded)])
    else
      var parsed := ParseDecimal(value);
      if parsed.None? then (None, [RowIssue(row, column, DecimalInvalidFormat)])
      else if |parsed.value.fraction| > places || |WithoutLeadingZeros(parsed.value.whole)| > maxDigits - places then
        (None, [RowIssue(row, column, DecimalPrecisionExceeded)])
      else (Some(Scaled(parsed.value, places)), [])
  }

  // ----- A row -----

  type Values = map<string, string>

  predicate HasColumns(values: Values) {
    forall c: Column | DataColumn(c) :: ColumnName(c) in values
  }

  function Value(values: Values, c: Column): string
    requires HasColumns(values) && DataColumn(c)
  {
    values[ColumnName(c)]
  }

  datatype Fields = Fields(
    recordId: Option<string>, date: Option<Day>, product: Option<string>, territory: Option<string>,
    hospital: Option<string>,
    representative: Option<string>, quantity: Option<int>, revenue: Option<int>, currency: Option<string>)

  const QUANTITY_DIGITS := 18
  const QUANTITY_PLACES := 3
  const REVENUE_DIGITS := 20
  const REVENUE_PLACES := 4

  function RecordId(values: Values, row: nat): (Option<string>, seq<Issue>)
    requires HasColumns(values)
  {
    TextField(Value(values, SourceRecordIdColumn), row, SourceRecordIdColumn, true, 255, false)
  }

  function Code(values: Values, row: nat, column: Column, required: bool): (Option<string>, seq<Issue>)
    requires HasColumns(values) && DataColumn(column)
  {
    TextField(Value(values, column), row, column, required, 64, true)
  }

  function CurrencyText(values: Values): string
    requires HasColumns(values)
  {
    Strip(Value(values, CurrencyColumn))
  }

  function CurrencyCode(values: Values, row: nat): (Option<string>, seq<Issue>)
    requires HasColumns(values)
  {
    TextField(CurrencyText(values), row, CurrencyColumn, true, 3, true)
  }

  function Quantity(values: Values, row: nat): (Option<int>, seq<Issue>)
    requires HasColumns(values)
  {
    DecimalField(Value(values, QuantityColumn), row, QuantityColumn, QUANTITY_DIGITS, QUANTITY_PLACES)
  }

  function Revenue(values: Values, row: nat): (Option<int>, seq<Issue>)
    requires HasColumns(values)
  {
    DecimalField(Value(values, RevenueColumn), row, RevenueColumn, REVENUE_DIGITS, REVENUE_PLACES)
  }

  function FieldsOf(values: Values, row: nat): Fields
    requires HasColumns(values)
  {
    Fields(RecordId(values, row).0, DateField(Value(values, TransactionDateColumn), row).0,
           Code(values, row, ProductColumn, true).0,
           Code(values, row, TerritoryColumn, true).0, Code(values, row, HospitalColumn, false).0,
           Code(values, row, RepresentativeColumn, false).0,
           Quantity(values, row).0, Revenue(values, row).0, CurrencyCode(values, row).0)
  }

  function Joined(a: seq<Issue>, b: seq<Issue>, c: seq<Issue>): seq<Issue> {
    a + b + c
  }

  function LeadingIssues(values: Values, row: nat): seq<Issue>
    requires HasColumns(values)
  {
    Joined(RecordId(values, row).1, DateField(Value(values, TransactionDateColumn), row).1,
           Code(values, row, ProductColumn, true).1)
  }

  function PlaceIssues(values: Values, row: nat): seq<Issue>
    requires HasColumns(values)
  {
    Joined(Code(values, row, TerritoryColumn, true).1, Code(values, row, HospitalColumn, false).1,
           Code(values, row, RepresentativeColumn, false).1)
  }

  function MeasureIssues(values: Values, row: nat): seq<Issue>
    requires HasColumns(values)
  {
    Joined(Quantity(values, row).1, Revenue(values, row).1, CurrencyCode(values, row).1)
  }

  /** The issues of the single values, in column order. */
  function FieldIssues(values: Values, row: nat): seq<Issue>
    requires HasColumns(values)
  {
    Joined(LeadingIssues(values, row), PlaceIssues(values, row), MeasureIssues(values, row))
  }

  predicate WrongCurrency(code: Option<string>, raw: string) {
    code.Some? && ((exists c | c in raw :: c as int >= 128) || !CurrencyFormat(code.value))
  }

  predicate SignMismatch(quantity: Option<int>, revenue: Option<int>) {
    && quantity.Some? && revenue.Some?
    && ((quantity.value > 0 && revenue.value < 0) || (quantity.value < 0 && revenue.value > 0))
  }

  function CrossIssues(f: Fields, currencyText: string, row: nat): seq<Issue> {
    IssueWhen(WrongCurrency(f.currency, currencyText), row, CurrencyColumn, CurrencyCodeInvalid)
    + IssueWhen(f.quantity == Some(0), row, QuantityColumn, QuantityZero)
    + IssueWhen(SignMismatch(f.quantity, f.revenue), row, RevenueColumn, MeasureSignMismatch)
  }

  predicate Duplicate(recordId: Option<string>, seen: set<string>) {
    recordId.Some? && recordId.value in seen
  }

  function RowIssues(values: Values, seen: set<string>, row: nat): seq<Issue>
    requires HasColumns(values)
  {
    var f := FieldsOf(values, row);
    FieldIssues(values, row) + CrossIssues(f, CurrencyText(values), row)
    + IssueWhen(Duplicate(f.recordId, seen), row, SourceRecordIdColumn, DuplicateSourceRecordId)
  }

  function Seen(seen: set<string>, recordId: Option<string>): set<string> {
    if recordId.Some? then seen + {recordId.value} else seen
  }

  predicate Complete(f: Fields) {
    && f.recordId.Some? && f.date.Some? && f.product.Some? && f.territory.Some? && f.quantity.Some? && f.revenue.Some?
    && f.currency.Some?
  }

  function RowOf(f: Fields): SalesRow
    requires Complete(f)
  {
    SalesRow(f.recordId.value, f.date.value, f.product.value, f.territory.value, f.hospital, f.representative,
             f.quantity.value, f.revenue.value, f.currency.value)
  }

  /** The result for one row, given the record ids seen before it. */
  function ResultOf(values: Values, seen: set<string>, row: nat): RowResult
    requires HasColumns(values)
  {
    var issues := RowIssues(values, seen, row);
    if issues != [] then RowResult(row, None, issues)
    else
      NoIssuesComplete(values, seen, row);
      RowResult(row, Some(RowOf(FieldsOf(values, row))), [])
  }

  lemma NothingWrong(wrong: bool, row: nat, column: Column, code: IssueCode)
    ensures IssueWhen(wrong, row, column, code) == [] <==> !wrong
  {
  }

  lemma NothingJoined(a: seq<Issue>, b: seq<Issue>, c: seq<Issue>)
    ensures Joined(a, b, c) == [] <==> a == [] && b == [] && c == []
  {
  }

  predicate LeadingClean(values: Values, row: nat)
    requires HasColumns(values)
  {
    && RecordId(values, row).1 == [] && DateField(Value(values, TransactionDateColumn), row).1 == []
    && Code(values, row, ProductColumn, true).1 == []
  }

  predicate PlacesClean(values: Values, row: nat)
    requires HasColumns(values)
  {
    && Code(values, row, TerritoryColumn, true).1 == [] && Code(values, row, HospitalColumn, false).1 == []
    && Code(values, row, RepresentativeColumn, false).1 == []
  }

  predicate MeasuresClean(values: Values, row: nat)
    requires HasColumns(values)
  {
    Quantity(values, row).1 == [] && Revenue(values, row).1 == [] && CurrencyCode(values, row).1 == []
  }

  lemma NoFieldIssues(values: Values, row: nat)
    requires HasColumns(values)
    ensures FieldIssues(values, row) == []
            <==> LeadingClean(values, row) && PlacesClean(values, row) && MeasuresClean(values, row)
  {
    hide HasColumns, RecordId, DateField, Code, Quantity, Revenue, CurrencyCode, Value, Joined;
    NothingJoined(RecordId(values, row).1, DateField(Value(values, TransactionDateColumn), row).1,
                  Code(values, row, ProductColumn, true).1);
    NothingJoined(Code(values, row, TerritoryColumn, true).1, Code(values, row, HospitalColumn, false).1,
                  Code(values, row, RepresentativeColumn, false).1);
    NothingJoined(Quantity(values, row).1, Revenue(values, row).1, CurrencyCode(values, row).1);
    NothingJoined(LeadingIssues(values, row), PlaceIssues(values, row), MeasureIssues(values, row));
  }

  lemma NoIssuesComplete(values: Values, seen: set<string>, row: nat)
    requires HasColumns(values) && RowIssues(values, seen, row) == []
    ensures FieldIssues(values, row) == [] && Complete(FieldsOf(values, row))
            && FieldsOf(values, row).quantity != Some(0)
    ensures var f := FieldsOf(values, row);
            && !WrongCurrency(f.currency, CurrencyText(values)) && !SignMismatch(f.quantity, f.revenue)
            && !Duplicate(f.recordId, seen)
  {
    hide HasColumns, Value, CurrencyText, FieldIssues, WrongCurrency, SignMismatch, Duplicate, IssueWhen, TextField,
         DecimalField, DateField;
    var f := FieldsOf(values, row);
    NothingWrong(WrongCurrency(f.currency, CurrencyText(values)), row, CurrencyColumn, CurrencyCodeInvalid);
    NothingWrong(f.quantity == Some(0), row, QuantityColumn, QuantityZero);
    NothingWrong(SignMismatch(f.quantity, f.revenue), row, RevenueColumn, MeasureSignMismatch);
    NothingWrong(Duplicate(f.recordId, seen), row, SourceRecordIdColumn, DuplicateSourceRecordId);
    NoFieldIssues(values, row);
  }

  // ----- Accepted rows meet the table constraints -----

  lemma AcceptedRow(values: Values, seen: set<string>, row: nat)
    requires HasColumns(values) && RowIssues(values, seen, row) == [] && row >= 2
    ensures Complete(FieldsOf(values, row)) && StagedRowConstraints(ToStaged(row, RowOf(FieldsOf(values, row))))
  {
    hide HasColumns, Value, CurrencyText, FieldIssues, RowIssues, CrossIssues, IssueWhen, TextField, DecimalField,
         DateField, Trimmed, Uppercase, CurrencyFormat;
    NoIssuesComplete(values, seen, row);
    NoFieldIssues(values, row);
    EmptyText();
  }

  lemma EmptyText()
    ensures Trimmed("") && Uppercase("")
  {
  }

  /** Issues of this row that are not about its record id being repeated. */
  predicate OwnContractIssues(issues: seq<Issue>, row: nat) {
    forall i | i in issues ::
      i.row == Some(row) && i.phase == ContractPhase && ContractCode(i.code) && i.code != DuplicateSourceRecordId
  }

  lemma OwnJoined(a: seq<Issue>, b: seq<Issue>, c: seq<Issue>, row: nat)
    requires OwnContractIssues(a, row) && OwnContractIssues(b, row) && OwnContractIssues(c, row)
    ensures OwnContractIssues(Joined(a, b, c), row)
  {
  }

  lemma OwnText(raw: string, row: nat, column: Column, required: bool, maxLength: nat, uppercase: bool)
    ensures OwnContractIssues(TextField(raw, row, column, required, maxLength, uppercase).1, row)
  {
    hide Strip, Upper;
  }

  lemma OwnDate(raw: string, row: nat)
    ensures OwnContractIssues(DateField(raw, row).1, row)
  {
    hide Strip, IsoPattern, Gregorian.IsDate, Gregorian.Ordinal, IsoDate;
  }

  lemma OwnDecimal(raw: string, row: nat, column: Column, maxDigits: nat, places: nat)
    requires places <= maxDigits
    ensures OwnContractIssues(DecimalField(raw, row, column, maxDigits, places).1, row)
  {
    hide Strip, ParseDecimal, WithoutLeadingZeros, Scaled;
  }

  lemma OwnLeading(values: Values, row: nat)
    requires HasColumns(values)
    ensures OwnContractIssues(LeadingIssues(values, row), row)
  {
    hide HasColumns, OwnContractIssues, TextField, DateField, Value, Joined;
    OwnText(Value(values, SourceRecordIdColumn), row, SourceRecordIdColumn, true, 255, false);
    OwnDate(Value(values, TransactionDateColumn), row);
    OwnText(Value(values, ProductColumn), row, ProductColumn, true, 64, true);
    OwnJoined(RecordId(values, row).1, DateField(Value(values, TransactionDateColumn), row).1,
              Code(values, row, ProductColumn, true).1, row);
  }

  lemma OwnPlaces(values: Values, row: nat)
    requires HasColumns(values)
    ensures OwnContractIssues(PlaceIssues(values, row), row)
  {
    hide HasColumns, OwnContractIssues, TextField, Value, Joined;
    OwnText(Value(values, TerritoryColumn), row, TerritoryColumn, true, 64, true);
    OwnText(Value(values, HospitalColumn), row, HospitalColumn, false, 64, true);
    OwnText(Value(values, RepresentativeColumn), row, RepresentativeColumn, false, 64, true);
    OwnJoined(Code(values, row, TerritoryColumn, true).1, Code(values, row, HospitalColumn, false).1,
              Code(values, row, RepresentativeColumn, false).1, row);
  }

  lemma OwnMeasures(values: Values, row: nat)
    requires HasColumns(values)
    ensures OwnContractIssues(MeasureIssues(values, row), row)
  {
    hide HasColumns, OwnContractIssues, TextField, DecimalField, Value, CurrencyText, Joined;
    OwnDecimal(Value(values, QuantityColumn), row, QuantityColumn, QUANTITY_DIGITS, QUANTITY_PLACES);
    OwnDecimal(Value(values, RevenueColumn), row, RevenueColumn, REVENUE_DIGITS, REVENUE_PLACES);
    OwnText(CurrencyText(values), row, CurrencyColumn, true, 3, true);
    OwnJoined(Quantity(values, row).1, Revenue(values, row).1, CurrencyCode(values, row).1, row);
  }

  lemma OwnFieldIssues(values: Values, row: nat)
    requires HasColumns(values)
    ensures OwnContractIssues(FieldIssues(values, row), row)
  {
    hide HasColumns, OwnContractIssues, LeadingIssues, PlaceIssues, MeasureIssues, Joined;
    OwnLeading(values, row);
    OwnPlaces(values, row);
    OwnMeasures(values, row);
    OwnJoined(LeadingIssues(values, row), PlaceIssues(values, row), MeasureIssues(values, row), row);
  }

  lemma OwnRowIssues(values: Values, seen: set<string>, row: nat)
    requires HasColumns(values)
    ensures forall i | i in RowIssues(values, seen, row) ::
              i.row == Some(row) && i.phase == ContractPhase && ContractCode(i.code)
    ensures (exists i | i in RowIssues(values, seen, row) :: i.code == DuplicateSourceRecordId)
            <==> Duplicate(RecordId(values, row).0, seen)
  {
    hide HasColumns, FieldIssues, FieldsOf, CurrencyText, WrongCurrency, SignMismatch, Duplicate, RecordId;
    OwnFieldIssues(values, row);
    FieldsRecordId(values, row);
    if Duplicate(RecordId(values, row).0, seen) {
      assert RowIssue(row, SourceRecordIdColumn, DuplicateSourceRecordId) in RowIssues(values, seen, row);
    }
  }

  /** Every result of the row contract is one that staging accepts. */
  lemma ResultIsGood(values: Values, seen: set<string>, row: nat)
    requires HasColumns(values) && row >= 2
    ensures GoodResult(ResultOf(values, seen, row)) && ResultOf(values, seen, row).rowNumber == row
    ensures ResultOf(values, seen, row).IsValid() ==>
              && ResultOf(values, seen, row).row.value.recordId !in seen
              && RecordId(values, row).0 == Some(ResultOf(values, seen, row).row.value.recordId)
    ensures (exists i | i in ResultOf(values, seen, row).issues :: i.code == DuplicateSourceRecordId)
            <==> Duplicate(RecordId(values, row).0, seen)
  {
    hide HasColumns, RowIssues, StagedRowConstraints, RecordId, FieldsOf, FieldIssues, ToStaged, CurrencyText,
         WrongCurrency, SignMismatch, ContractCode;
    OwnRowIssues(values, seen, row);
    FieldsRecordId(values, row);
    if RowIssues(values, seen, row) == [] {
      AcceptedRow(values, seen, row);
      NoIssuesComplete(values, seen, row);
    }
  }

  lemma FieldsRecordId(values: Values, row: nat)
    requires HasColumns(values)
    ensures FieldsOf(values, row).recordId == RecordId(values, row).0
  {
    hide HasColumns, RecordId;
  }
}
