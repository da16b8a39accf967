/** The errors an instruction of the vault can fail with. The two codes the program
    declares itself (`AlreadyInitialized`, `NotInitialized`) name the failures of
    the framework's `init` and account loading that carry the same meaning. */
module Errors {
  import Token

  datatype Error =
    | AlreadyInitialized          // an `init` account already exists
    | NotInitialized              // an account the instruction loads is missing or of another type
    | AccountNotSigner            // a `Signer` account did not sign the transaction
    | ConstraintSeeds             // an account is not at the address its seeds derive
    | ConstraintRaw               // a `constraint = ...` on a token account is false
    | ArithmeticOverflow          // the deposit credit leaves the u64 range
    | ArithmeticUnderflow         // the withdraw debit goes below zero
    | TokenFailure(cause: Token.TokenError)   // propagated from the token program's Transfer
}
