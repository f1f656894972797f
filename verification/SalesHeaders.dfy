/** The header row of a sales file: exactly nine columns, in any order. */
module SalesHeaders {
  import opened Results
  import opened Tables

  const SALES_COLUMNS := [
    "source_record_id", "transaction_date", "product_code", "territory_code", "hospital_code",
    "sales_representative_code", "quantity", "revenue_amount", "currency_code"]

  function ColumnName(column: Column): string {
    match column
    case SourceRecordIdColumn => "source_record_id"
    case TransactionDateColumn => "transaction_date"
    case ProductColumn => "product_code"
    case TerritoryColumn => "territory_code"
    case HospitalColumn => "hospital_code"
    case RepresentativeColumn => "sales_representative_code"
    case QuantityColumn => "quantity"
    case RevenueColumn => "revenue_amount"
    case CurrencyColumn => "currency_code"
    case WholeRow => "__row__"
    case WholeFile => "__file__"
  }

  predicate DataColumn(column: Column) {
    column != WholeRow && column != WholeFile
  }

  function RemovePrefix(s: string, prefix: string): string {
    if prefix <= s then s[|prefix|..] else s
  }

  const BYTE_ORDER_MARK := "\U{FEFF}"

  function Normalized(headers: seq<string>): (r: seq<string>)
    ensures |r| == |headers|
  {
    if headers == [] then [] else [RemovePrefix(headers[0], BYTE_ORDER_MARK)] + headers[1..]
  }

  predicate Duplicated(headers: seq<string>) {
    exists h | h in headers :: multiset(headers)[h] > 1
  }

  function Expected(): set<string> {
    set h | h in SALES_COLUMNS
  }

  function Actual(headers: seq<string>): set<string> {
    set h | h in headers
  }

  /** `validate_sales_headers`: duplicates, then missing, then unknown columns. */
  function ValidateSalesHeaders(headers: seq<string>): Result<seq<string>, IssueCode> {
    var normalized := Normalized(headers);
    if Duplicated(normalized) then Err(SchemaDuplicateColumn)
    else if Expected() - Actual(normalized) != {} then Err(SchemaMissingColumn)
    else if Actual(normalized) - Expected() != {} then Err(SchemaUnknownColumn)
    else Ok(normalized)
  }

  lemma NoDuplicates(headers: seq<string>)
    ensures !Duplicated(headers) <==> forall h :: multiset(headers)[h] == if h in headers then 1 else 0
  {
  }

  lemma {:induction false} ColumnsDistinct()
    ensures |SALES_COLUMNS| == 9 && !Duplicated(SALES_COLUMNS)
  {
    var lengths := [16, 16, 12, 14, 13, 25, 8, 14, 13];
    forall i, j | 0 <= i < j < 9 ensures SALES_COLUMNS[i] != SALES_COLUMNS[j] {
      assert |SALES_COLUMNS[i]| == lengths[i] && |SALES_COLUMNS[j]| == lengths[j];
      assert SALES_COLUMNS[0][0] != SALES_COLUMNS[1][0] && SALES_COLUMNS[3][0] != SALES_COLUMNS[7][0]
             && SALES_COLUMNS[4][0] != SALES_COLUMNS[8][0];
    }
    DistinctOnce(SALES_COLUMNS);
  }

  lemma {:induction false} DistinctOnce(s: seq<string>)
    requires forall i, j | 0 <= i < j < |s| :: s[i] != s[j]
    ensures forall h :: multiset(s)[h] == if h in s then 1 else 0
  {
    if s != [] {
      var n := |s| - 1;
      DistinctOnce(s[..n]);
      assert s == s[..n] + [s[n]];
    }
  }

  /** Headers are accepted exactly when they are a permutation of the nine columns, after removing a byte-order mark. */
  lemma AcceptedIsPermutation(headers: seq<string>)
    ensures ValidateSalesHeaders(headers).Ok? <==> multiset(Normalized(headers)) == multiset(SALES_COLUMNS)
  {
    hide Normalized, SALES_COLUMNS;
    var h := Normalized(headers);
    ColumnsDistinct();
    NoDuplicates(SALES_COLUMNS);
    NoDuplicates(h);
    if ValidateSalesHeaders(headers).Ok? {
      forall x ensures x in h <==> x in SALES_COLUMNS {
        if x in h {
          assert x in Actual(h);
        }
        if x in SALES_COLUMNS {
          assert x in Expected();
        }
      }
    }
    if multiset(h) == multiset(SALES_COLUMNS) {
      forall x ensures x in h <==> x in SALES_COLUMNS {
        assert x in multiset(h) <==> x in multiset(SALES_COLUMNS);
      }
      assert Actual(h) == Expected();
    }
  }

  /** Which error a refused header has: repeated columns come first, then missing and then unknown ones. */
  lemma RefusedHeaders(headers: seq<string>)
    ensures var h, r := Normalized(headers), ValidateSalesHeaders(headers);
            && (r == Err(SchemaDuplicateColumn) <==> exists i, j :: 0 <= i < j < |h| && h[i] == h[j])
            && (r == Err(SchemaMissingColumn)
                <==> (forall i, j | 0 <= i < j < |h| :: h[i] != h[j]) && exists c | c in SALES_COLUMNS :: c !in h)
            && (r == Err(SchemaUnknownColumn)
                <==> && (forall i, j | 0 <= i < j < |h| :: h[i] != h[j]) && (forall c | c in SALES_COLUMNS :: c in h)
                     && exists x | x in h :: x !in SALES_COLUMNS)
            && (r.Ok? || r == Err(SchemaDuplicateColumn) || r == Err(SchemaMissingColumn)
                || r == Err(SchemaUnknownColumn))
  {
    hide Normalized, SALES_COLUMNS;
    var h := Normalized(headers);
    if Duplicated(h) {
      RepeatedTwice(h);
    } else {
      OnceDistinct(h);
    }
    Differences(h);
  }

  lemma Differences(h: seq<string>)
    ensures Expected() - Actual(h) != {} <==> exists c | c in SALES_COLUMNS :: c !in h
    ensures Actual(h) - Expected() != {} <==> exists x | x in h :: x !in SALES_COLUMNS
  {
    hide SALES_COLUMNS;
    if c :| c in SALES_COLUMNS && c !in h {
      assert c in Expected() - Actual(h);
    }
    if x :| x in h && x !in SALES_COLUMNS {
      assert x in Actual(h) - Expected();
    }
  }

  lemma RepeatedTwice(s: seq<string>)
    requires Duplicated(s)
    ensures exists i, j :: 0 <= i < j < |s| && s[i] == s[j]
  {
    if forall i, j | 0 <= i < j < |s| :: s[i] != s[j] {
      DistinctOnce(s);
    }
  }

  /** A byte-order mark before the first column is removed, and nothing else is changed. */
  lemma MarkRemoved(first: string, others: seq<string>)
    ensures Normalized(["\U{FEFF}" + first] + others) == [first] + others
    ensures (first == [] || first[0] != '\U{FEFF}') ==> Normalized([first] + others) == [first] + others
  {
  }

  lemma AcceptedFacts(headers: seq<string>)
    requires ValidateSalesHeaders(headers).Ok?
    ensures var h := ValidateSalesHeaders(headers).value;
            && |h| == 9 && (forall i, j | 0 <= i < j < |h| :: h[i] != h[j])
            && forall c: Column | DataColumn(c) :: ColumnName(c) in h
  {
    hide Normalized, SALES_COLUMNS, ColumnName;
    AcceptedIsPermutation(headers);
    ColumnsDistinct();
    var h := Normalized(headers);
    assert |multiset(h)| == |h| && |multiset(SALES_COLUMNS)| == |SALES_COLUMNS|;
    OnceDistinct(h);
    forall c: Column | DataColumn(c) ensures ColumnName(c) in h {
      NameIsColumn(c);
      assert ColumnName(c) in multiset(SALES_COLUMNS);
      assert ColumnName(c) in multiset(h);
    }
  }

  lemma NameIsColumn(c: Column)
    requires DataColumn(c)
    ensures ColumnName(c) in SALES_COLUMNS
  {
    assert ColumnName(c) == SALES_COLUMNS[ColumnIndex(c)];
  }

  function ColumnIndex(c: Column): (i: nat)
    ensures i < 9
  {
    match c
    case SourceRecordIdColumn => 0 case TransactionDateColumn => 1 case ProductColumn => 2
    case TerritoryColumn => 3 case HospitalColumn => 4
    case RepresentativeColumn => 5 case QuantityColumn => 6 case RevenueColumn => 7 case CurrencyColumn => 8 case _ => 0
  }

  lemma Twice(s: seq<string>, i: nat, j: nat)
    requires i < j < |s|
    ensures s[i] == s[j] ==> multiset(s)[s[i]] >= 2
  {
    assert s == s[..i] + [s[i]] + s[i + 1..j] + [s[j]] + s[j + 1..];
  }

  lemma OnceDistinct(s: seq<string>)
    requires !Duplicated(s)
    ensures forall i, j | 0 <= i < j < |s| :: s[i] != s[j]
  {
    forall i, j | 0 <= i < j < |s| ensures s[i] != s[j] {
      Twice(s, i, j);
      assert s[i] in s;
    }
  }
}
