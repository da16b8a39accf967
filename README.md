# Firebird vault, modelled in Dafny

Firebird is a custodial token vault on a Solana-style runtime. Users deposit tokens
of a mint into a pool token account. The pool is owned by the program's "Global
Pool" derived address. Users later withdraw what they deposited. The program keeps
one `UserState { amount, mint }` record per (mint, user), at an address derived from
the mint and user keys. It also keeps one `GlobalPool { admin }` record at the
address derived from the label "Global Pool". That address is also the authority
that signs every transfer out of a pool.

The model covers the four instructions `initialize`, `user_token_pool_initialize`,
`deposit` and `withdraw`, and the account constraint sets the framework checks
before each of them. Modules follow the program's structure:

- `Keys` (keys.dfy): addresses. A derived address is the `ProgramAddress(seeds)`
  constructor, so derivation is injective and a derived address is never a wallet
  key. It covers the seeds of both derivations, the bump, and who counts as a
  signer: a transaction's wallets, plus addresses the program re-derives from the
  seeds it attaches to a cross-program call.
- `Token` (token.dfy): token accounts and the token program's `Transfer`. A
  transfer moves a balance or fails: insufficient funds, mint mismatch, owner
  mismatch, missing signature, or destination overflow. A transfer to the same
  account is a no-op.
- `Records` (records.dfy): the `GlobalPool` and `UserState` records, and the
  balance arithmetic of lines 45 and 68. The arithmetic is checked: it aborts
  instead of wrapping. `Replay` folds that arithmetic over a history of deposits
  and withdrawals.
- `Constraints` (constraints.dfy): the `Initialize`, `UserStateInitialize` and
  `DepositToken`/`WithdrawToken` constraint sets. Each is a check that returns the
  first failure in the framework's order, or `Pass`.
- `Invariants` (invariants.dfy): the two invariants and the proofs that every
  instruction keeps them. Mint pinning: a record at the address derived from
  (mint, user) holds `mint`. Solvency: for every mint, the users' amounts add up to
  at most what the global authority's pools of that mint hold.
- `Firebird` (firebird.dfy): the `Vault` class. It holds the accounts the program
  reads and writes. The instructions are its methods. Each method validates,
  transfers, then updates the record. It writes the new state only when every step
  succeeds, because an instruction is atomic. On any error nothing changes.
- `Totals` (totals.dfy) and `Wrappers` (wrappers.dfy) are helpers: sums over
  finite maps, and result types plus `u64`.

The source leaves the overflow behaviour of its u64 credit and debit to a build profile that
is not part of this model. The model uses checked arithmetic. See Findings for what
the wrapping reading of the debit does.

Withdraw transfers first and debits second (`lib.rs:63-68`). The model keeps this
order. Because the instruction is atomic, an over-withdrawal still changes nothing;
`Firebird.Vault.Withdraw` states this. The order shows only in the error reported:
when the pool is also short, the model reports the token program's
`InsufficientFunds`, not `ArithmeticUnderflow`.

## Model

| member | source | states |
|---|---|---|
| `Keys.FindProgramAddress` | programs/firebird/src/lib.rs:75-78 | the derived address is the address created from the seeds followed by the bump the derivation returns |
| `Keys.DerivationsAreDistinct` | programs/firebird/src/lib.rs:92-98 | two (mint, user) pairs share a record address exactly when they are equal; no record address is the global authority; no derived address is a wallet that could sign a transaction |
| `Keys.SignerSeedsMatchAuthority` | programs/firebird/src/lib.rs:53-56 | the seeds `withdraw` attaches ("Global Pool" and the bump) re-derive exactly the global authority |
| `Token.Transfer` | programs/firebird/src/lib.rs:40-43 | succeeds exactly when both accounts exist, the source holds the amount, the mints agree, the authority is the source's owner and has signed, and the destination does not overflow; insufficient funds is reported exactly when the source holds too little; on success only the two accounts change, by minus and plus the amount, and keep their mint and owner |
| `Token.TransferHoldings` | programs/firebird/src/lib.rs:58-66 | the total held by any mint/owner selection of accounts gains the amount when only the destination is selected, loses it when only the source is, and is otherwise unchanged |
| `Token.TransferConservesSupply` | programs/firebird/src/lib.rs:63-66 | a successful transfer leaves the total balance of every mint unchanged |
| `Token.DerivedOwnerNeedsSeeds` | programs/firebird/src/lib.rs:58-64 | without seeds attached by the program, no transfer out of an account owned by a derived address succeeds |
| `Records.Credit` | programs/firebird/src/lib.rs:45 | the deposit credit succeeds exactly when the sum fits in a u64, and then adds exactly the amount and keeps the mint; otherwise it fails with overflow |
| `Records.Debit` | programs/firebird/src/lib.rs:68 | the withdraw debit succeeds exactly when the amount is at most the balance, and then subtracts exactly the amount and keeps the mint; otherwise it fails with underflow |
| `Records.CreditDebitInverse` | programs/firebird/src/lib.rs:45-68 | a withdrawal of the amount just deposited restores the record, and a deposit restores what an allowed withdrawal took |
| `Records.WrappingDebit` | programs/firebird/src/lib.rs:68 | the debit as compiled without overflow checks: exact subtraction when the amount fits, otherwise 2^64 minus the shortfall, which exceeds the old balance |
| `Records.Replay` | programs/firebird/src/lib.rs:29-70 | after any history of successful deposits and withdrawals the record keeps its mint and holds its old amount plus the deposits minus the withdrawals |
| `Records.DepositThenWithdrawLeavesDifference` | tests/firebird.ts:127-143 | depositing 10^12 and then withdrawing 10^11 leaves 9 * 10^11 on a fresh record |
| `Constraints.CheckInitialize` | programs/firebird/src/lib.rs:73-88 | passes exactly when the admin signed, the global authority is the "Global Pool" derivation and no global pool exists; fails with AlreadyInitialized exactly when only the last condition fails |
| `Constraints.CheckUserStateInitialize` | programs/firebird/src/lib.rs:90-107 | passes exactly when the signer signed, the mint exists, the record address is the (mint, signer) derivation and no record is there; always fails once that record exists |
| `Constraints.CheckTokenMove` | programs/firebird/src/lib.rs:109-143 | passes exactly when all accounts exist, the signer signed, the record is the (mint, signer) derivation, the pool holds the mint for the global authority, the user token account holds the mint for the signer, and the authority is the "Global Pool" derivation; a failure is always a load, signer, seeds or constraint error |
| `Constraints.TokenMovePins` | programs/firebird/src/lib.rs:118-130 | accounts that pass have a pool owned by the canonical global authority and a user token account owned by the signing wallet, and these are two different accounts |
| `Invariants.PinnedRecordHasMint` | programs/firebird/src/lib.rs:111-115 | under mint pinning, the record that passes the seeds check for a mint is a record of that mint |
| `Invariants.NoRecordsIsSolvent` | programs/firebird/src/lib.rs:73-88 | a vault with no user records satisfies both invariants whatever the token accounts hold |
| `Invariants.CreateKeepsInvariants` | programs/firebird/src/lib.rs:22-27 | creating a zero record at the (mint, user) address keeps mint pinning and solvency |
| `Invariants.DepositKeepsInvariants` | programs/firebird/src/lib.rs:29-47 | a credit together with a transfer from a non-pool account into a pool of the record's mint keeps mint pinning and solvency |
| `Invariants.WithdrawKeepsInvariants` | programs/firebird/src/lib.rs:49-70 | a debit together with a transfer from a pool of the record's mint to a non-pool account keeps mint pinning and solvency |
| `Invariants.CreditCannotOverflow` | programs/firebird/src/lib.rs:45 | in a solvent vault whose mint supply fits in a u64, a deposit the user can fund never overflows the record |
| `Invariants.WrappingDebitBreaksSolvency` | programs/firebird/src/lib.rs:63-68 | with a wrapping debit, a user with nothing deposited withdraws 100 that another user deposited: the pool transfer succeeds and the solvent vault becomes insolvent, while the checked `Debit` rejects the same withdrawal |
| `Firebird.Vault.Initialize` | programs/firebird/src/lib.rs:16-20 | result is the Initialize check; on success the global pool records the caller as admin; once a pool exists every call fails and leaves the admin; records and token accounts never change |
| `Firebird.Vault.UserTokenPoolInitialize` | programs/firebird/src/lib.rs:22-27 | result is the UserStateInitialize check; on success exactly one record appears, at the (mint, signer) address, with amount 0 and that mint; the global pool and token accounts never change |
| `Firebird.Vault.Deposit` | programs/firebird/src/lib.rs:29-47 | succeeds exactly when the accounts pass, the user holds the amount and neither pool nor record overflows; then exactly three things change: the record gains the amount, the user token account loses it and the pool gains it; on failure nothing changes; both invariants are kept |
| `Firebird.Vault.Withdraw` | programs/firebird/src/lib.rs:49-70 | succeeds exactly when the accounts pass, the pool holds the amount, the user account does not overflow and the amount is at most the record's; then exactly three things change: the record and the pool lose the amount and the user token account gains it; an amount above the record fails with the record and every token balance unchanged; both invariants are kept |
| `Firebird.DepositThenWithdraw` | tests/firebird.ts:73-143 | the full run leaves 9 * 10^11 on the record and in the pool and 10^11 with the user; that the run also rejects a second initialize, an over-withdrawal, a deposit from another mint's account and a forged authority, each without effect, is proved by assertions in the body |

## Left out

- Client-side RPC, airdrops, mint creation and logging in tests/firebird.ts are I/O against a validator. The run they describe appears only as `Firebird.DepositThenWithdraw`.
- The bump search of address derivation is a hash and curve routine of the runtime. `Keys.CanonicalBump` fixes one bump per seed list. The model only relies on that bump being the one carried into the signer seeds. The program id is not part of the seeds, because there is one program.
- System program account creation, rent, the `payer` lamports and the `space` sizes are runtime plumbing. So are the account discriminators and serialization. An `init` in the model fails only when a record of its own kind already exists.
- Writability (`mut`) flags and the `Program<Token>`/`Program<System>` id checks are left out. The model's `Transfer` is the token program itself.
- Token program features the vault never uses are left out: delegates, frozen accounts, multisig owners and mint supply tracking. `Invariants.CreditCannotOverflow` takes the bound on the mint's supply as a premise.
- Error codes are labels, not the framework's numeric codes. One simplification: a forged `global_authority` is not rejected when the accounts are loaded. It fails at the first constraint that names it. That is the pool-owner constraint when the pool is owned by the real authority, and otherwise the seeds check.
- `AlreadyInitialized` and `NotInitialized` from error.rs are never raised by the program. The model reuses them as labels for the framework's `init` and load failures.
- Transfers that parties outside the program make into or out of pools are not operations of the model. `Token.DerivedOwnerNeedsSeeds` shows that such a transfer cannot take tokens out of a pool. The solvency invariant is stated as "at most" and not "equal", so deposits from outside would keep it as well.
- Concurrency and transaction scheduling belong to the runtime, which serializes instructions. Each method models one atomic instruction.
- `GlobalPool.admin` is recorded and never read, so no instruction depends on it.
- `Firebird.Vault.Deposit`: states that a failure changes nothing, but not which error each failure reports. `Constraints.CheckTokenMove`, `Token.Transfer` and `Records.Credit` state the error kinds.
- `Firebird.Vault.Withdraw`: states the same way that a failure changes nothing, but not which error it reports.

## Findings

| source | as written | input that shows it | evidently intended | confidence | as-written member | corrected member |
|---|---|---|---|---|---|---|
| programs/firebird/src/lib.rs:63-68 | the pool transfer runs first, then the record amount is reduced by an unchecked u64 subtraction | alice has deposited 100 into a pool holding 100; bob's record holds 0; bob withdraws 100 | reject a withdrawal above the record's amount, leaving the vault solvent | not executed; applies only to a build without overflow checks, and the build profile is not part of this model | `Records.WrappingDebit`, `Invariants.WrappingDebitBreaksSolvency` | `Records.Debit`, `Invariants.WithdrawKeepsInvariants` |
