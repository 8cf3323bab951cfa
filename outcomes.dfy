/** Option and Result wrappers, and the errors of the multisig program that the
    model covers (the writability constraint's error is not among them). */
module Outcomes {

  datatype Option<+T> = None | Some(value: T)

  /** The program's own error codes that some path raises, the framework errors
      raised when a raw, `has_one`, signer or seeds constraint fails, the abort caused by an
      out-of-range slice index, and the failure of the invoked instruction. */
  datatype ErrorCode =
    | InvalidOwner        // the given key is not one of the owners
    | NotEnoughSigners    // fewer approvals than the threshold
    | AlreadyExecuted     // the transaction was executed before
    | InvalidThreshold    // the threshold exceeds the number of owners
    | ConstraintRaw       // a `constraint = ...` expression is false (seqno mismatch)
    | ConstraintHasOne    // `transaction.multisig` is not the multisig account
    | ConstraintSigner    // an account that must sign did not
    | ConstraintSeeds     // the signer account is not the address derived from the multisig
    | IndexOutOfBounds    // an index write past the end of `signers` aborts the program
    | InvocationFailed    // the invoked instruction failed

  /** The outcome of an instruction or of one of its steps. */
  datatype Result<+T> = Ok(value: T) | Err(error: ErrorCode)
}
