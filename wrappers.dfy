/** Failure-carrying values shared by every module of the model. */
module Wrappers {

  datatype Option<+T> = None | Some(value: T)

  /** The outcome of an operation that either yields a value or raises an error. */
  datatype Result<+T, +E> = Success(value: T) | Failure(error: E)

  /** The outcome of a check that yields nothing but may raise an error. */
  datatype Outcome<+E> = Pass | Fail(error: E)
}

/** The error kinds the codec raises, one per distinct failure of the source. */
module AbaErrors {

  /** Failures of rendering (`to_s`). */
  datatype RenderError =
    | Invalid          // `validate!` found a field that breaks its constraint
    | NoTransactions   // a batch with no transactions was rendered

  /** Failures of the parser, one per message it raises. */
  datatype ParseError =
    | CouldNotParse            // unknown record type, or an input that is neither stream nor text
    | PreviousBatchUnfinished  // a header line while a batch is open
    | TransactionOutsideBatch  // a detail line while no batch is open
    | SummaryWithoutBatch      // a file-total line while no batch is open
    | SummaryMismatch          // a file-total line that does not reconcile with the open batch
}
