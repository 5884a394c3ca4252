/** The error variants the validators report (src/error.rs). */
module Errors {

  /** What a bar-validation failure is about; each case carries the values its message shows. */
  datatype ValidationIssue =
    | TooFewRows(required: nat, present: nat)
    | NonPositiveClose(row: nat, close: real)
    | NonPositiveVolume(row: nat, volume: real)

  datatype RuptureError =
    | Config(message: string)
    | Validation(issue: ValidationIssue)
    | EmptyData(message: string)
}
