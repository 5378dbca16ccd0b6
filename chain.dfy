/**
 * The outside world as the client sees it. Every awaited call into the
 * browser wallet or the game contract is an input to the model: what it
 * returned, or that it threw. Nothing here performs I/O.
 */
module Chain {

  /** The outcome of one awaited call: a value, or a thrown error. */
  datatype Reply<+T> = Returns(value: T) | Throws

  /**
   * How a submitted transaction ends: the submitting call throws (the user
   * rejects it in the wallet), `wait()` throws (reverted or dropped), or it
   * is mined.
   */
  datatype TxOutcome = Rejected | Reverted | Confirmed
}
