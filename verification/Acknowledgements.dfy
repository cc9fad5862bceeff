/** What the far end is told once a receive cycle has ended. */
module Acknowledgements {

  datatype Refusal = Unidentified | Forbidden | Unacceptable

  /** Accepted consumes; refused is not said again; failed is sent again. */
  datatype Verdict = Accepted | Refused(why: Refusal) | Failed
}
