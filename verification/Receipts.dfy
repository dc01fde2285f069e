/** Read-only verdicts over an idempotency ledger row. */
module Receipts {
  import opened Results

  datatype Receipt<+R> = Committed(record: R) | NotCommitted | KeyConflict

  /** `row` is what the ledger holds for a key, `matches` whether it was written by the same request. */
  function Classify<R>(row: Option<R>, matches: bool): Receipt<R> {
    match row
    case None => NotCommitted
    case Some(record) => if matches then Committed(record) else KeyConflict
  }
}
