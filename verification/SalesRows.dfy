/** The row contract's results, as they pass from the file iterator to staging. */
module SalesRows {
  import opened Results
  import opened Tables

  datatype SalesRow = SalesRow(
    recordId: string, date: Day, product: string, territory: string, hospital: Option<string>,
    representative: Option<string>, quantity: int, revenue: int, currency: string)

  datatype RowResult = RowResult(rowNumber: nat, row: Option<SalesRow>, issues: seq<Issue>) {
    predicate IsValid() {
      row.Some? && issues == []
    }
  }

  /** How the stream ended: normally, with a file-level contract error, or in undecodable bytes. */
  datatype StreamEnd = Finished | FileError(code: IssueCode) | Undecodable

  function Text(value: Option<string>): string {
    if value.Some? then value.value else ""
  }

  function ToStaged(rowNumber: nat, row: SalesRow): StagedRow {
    StagedRow(rowNumber, row.recordId, row.date, row.product, row.territory, Text(row.hospital),
              Text(row.representative),
              row.quantity, row.revenue, row.currency, None, Staged, None)
  }

  predicate GoodResult(r: RowResult) {
    && r.rowNumber >= 2
    && (r.IsValid() ==> StagedRowConstraints(ToStaged(r.rowNumber, r.row.value)))
    && (!r.IsValid() ==> r.issues != [])
    && (forall i | i in r.issues :: i.row == Some(r.rowNumber) && i.phase == ContractPhase && ContractCode(i.code))
  }

  predicate ContractCode(code: IssueCode) {
    code != SourceRecordConflict && code != IssueLimitReached
  }

  /** What the row contract guarantees about the results of one file. */
  predicate GoodResults(results: seq<RowResult>) {
    && (forall r | r in results :: GoodResult(r))
    && (forall i, j | 0 <= i < j < |results| :: results[i].rowNumber < results[j].rowNumber)
    && (forall i, j | 0 <= i < j < |results| && results[i].IsValid() && results[j].IsValid() ::
          results[i].row.value.recordId != results[j].row.value.recordId)
  }
}
