/** The two records the program owns (`GlobalPool`, `UserState`) and the balance
    arithmetic that deposits and withdrawals perform on a `UserState`.

    `Replay` folds `Credit` and `Debit` over a history. It speaks for a sequence of
    `Vault.Deposit` and `Vault.Withdraw` calls because, on success, those methods
    set the record's amount to what `Credit` and `Debit` compute. */
module Records {
  import opened Wrappers
  import opened Keys
  import opened Errors

  /** The singleton record at the global authority's address. */
  datatype GlobalPool = GlobalPool(admin: Pubkey)

  /** One record per (mint, user): how much of `mint` the user has deposited. */
  datatype UserState = UserState(amount: U64, mint: Pubkey)

  /** The deposit credit of a record, aborting instead of wrapping past the u64 maximum. */
  function Credit(s: UserState, amount: U64): (r: Result<UserState, Error>)
    ensures r.Success? <==> s.amount + amount <= U64_MAX
    ensures r.Failure? ==> r.error == ArithmeticOverflow
    ensures r.Success? ==> r.value.amount == s.amount + amount && r.value.mint == s.mint
  {
    if s.amount + amount > U64_MAX then Failure(ArithmeticOverflow)
    else Success(UserState(s.amount + amount, s.mint))
  }

  /** The withdraw debit of a record, aborting instead of wrapping below zero. */
  function Debit(s: UserState, amount: U64): (r: Result<UserState, Error>)
    ensures r.Success? <==> amount <= s.amount
    ensures r.Failure? ==> r.error == ArithmeticUnderflow
    ensures r.Success? ==> r.value.amount == s.amount - amount && r.value.mint == s.mint
  {
    if amount > s.amount then Failure(ArithmeticUnderflow)
    else Success(UserState(s.amount - amount, s.mint))
  }

  /** A deposit of `amount` is undone by a withdrawal of the same amount, and the
      other way round whenever the withdrawal is allowed. */
  lemma CreditDebitInverse(s: UserState, amount: U64)
    ensures Credit(s, amount).Success? ==> Debit(Credit(s, amount).value, amount) == Success(s)
    ensures Debit(s, amount).Success? ==> Credit(Debit(s, amount).value, amount) == Success(s)
  {
  }

  /** The withdraw debit as compiled without overflow checks: the difference modulo 2^64. */
  function WrappingDebit(s: UserState, amount: U64): (r: UserState)
    ensures r.mint == s.mint
    ensures amount <= s.amount ==> r.amount == s.amount - amount
    ensures amount > s.amount ==> r.amount == U64_MAX + 1 - (amount - s.amount) && r.amount > s.amount
  {
    UserState((s.amount - amount) % (U64_MAX + 1), s.mint)
  }

  /** One balance-changing instruction applied to a user's state record. */
  datatype Move = Deposit(amount: U64) | Withdraw(amount: U64)

  function Deposited(moves: seq<Move>): nat
  {
    if moves == [] then 0
    else (if moves[0].Deposit? then moves[0].amount else 0) + Deposited(moves[1..])
  }

  function Withdrawn(moves: seq<Move>): nat
  {
    if moves == [] then 0
    else (if moves[0].Withdraw? then moves[0].amount else 0) + Withdrawn(moves[1..])
  }

  /** The state record after `moves` in order, or the first error (which aborts that
      instruction; the ones after it are not applied). */
  function Replay(s: UserState, moves: seq<Move>): (r: Result<UserState, Error>)
    ensures r.Success? ==> r.value.mint == s.mint
    ensures r.Success? ==> r.value.amount == s.amount + Deposited(moves) - Withdrawn(moves)
    decreases |moves|
  {
    if moves == [] then Success(s)
    else
      var step := match moves[0]
        case Deposit(a) => Credit(s, a)
        case Withdraw(a) => Debit(s, a);
      if step.Failure? then step else Replay(step.value, moves[1..])
  }

  /** Deposit 10^12, withdraw 10^11: 9 * 10^11 remains on the record. */
  lemma DepositThenWithdrawLeavesDifference(mint: Pubkey)
    ensures Replay(UserState(0, mint), [Deposit(1_000_000_000_000), Withdraw(100_000_000_000)])
            == Success(UserState(900_000_000_000, mint))
  {
    var moves := [Deposit(1_000_000_000_000), Withdraw(100_000_000_000)];
    assert moves[1..] == [Withdraw(100_000_000_000)];
    assert moves[1..][1..] == [];
  }
}
