/** The vault program: its four instructions acting on the accounts they touch.

    `Vault` holds the accounts of the runtime the program reads and writes: the
    `GlobalPool` record (absent until `initialize`), the `UserState` records by
    address, the token accounts by address, and the set of existing mints. An
    instruction runs atomically: it first validates its accounts, then performs the
    token transfer and the balance update, and writes the new state only when all of
    them succeed; on any error nothing changes. */
module Firebird {
  import opened Wrappers
  import opened Keys
  import opened Token
  import opened Errors
  import opened Records
  import opened Constraints
  import opened Invariants

  class Vault {
    const mints: set<Pubkey>
    var global: Option<GlobalPool>
    var userStates: map<Pubkey, UserState>
    var tokens: map<Pubkey, TokenAccount>

    ghost predicate Valid()
      reads this
    {
      MintsPinned(userStates) && Solvent(userStates, tokens)
    }

    /** A fresh deployment: mints and token accounts (the pools among them) are
        provisioned outside the program; no program record exists yet. */
    constructor (mints: set<Pubkey>, tokens: map<Pubkey, TokenAccount>)
      ensures Valid()
      ensures this.mints == mints && this.tokens == tokens
      ensures global == None && userStates == map[]
    {
      this.mints := mints;
      this.tokens := tokens;
      global := None;
      userStates := map[];
      new;
      NoRecordsIsSolvent(tokens);
    }

    /** `initialize`: records the signing admin in the newly created global pool.
        Only the first call succeeds; `admin` is never written again. */
    method Initialize(ctx: InitializeAccounts, signatures: set<nat>) returns (r: Outcome<Error>)
      requires Valid()
      modifies this
      ensures Valid()
      ensures r == CheckInitialize(ctx, signatures, old(global))
      ensures r.Pass? ==> global == Some(GlobalPool(ctx.admin))
      ensures r.Fail? ==> global == old(global)
      ensures old(global).Some? ==> r.Fail? && global == old(global)
      ensures userStates == old(userStates) && tokens == old(tokens)
    {
      r := CheckInitialize(ctx, signatures, global);
      if r.Pass? {
        global := Some(GlobalPool(ctx.admin));
      }
    }

    /** `user_token_pool_initialize`: creates the signer's record for `token_mint`
        at its derived address, holding 0 of that mint; fails if it exists. */
    method UserTokenPoolInitialize(ctx: UserStateInitializeAccounts, signatures: set<nat>)
      returns (r: Outcome<Error>)
      requires Valid()
      modifies this
      ensures Valid()
      ensures r == CheckUserStateInitialize(ctx, signatures, old(userStates), mints)
      ensures r.Pass? ==> && ctx.userState == UserStateAddress(ctx.tokenMint, ctx.signer)
                          && ctx.userState !in old(userStates)
                          && userStates == old(userStates)[ctx.userState := UserState(0, ctx.tokenMint)]
      ensures r.Fail? ==> userStates == old(userStates)
      ensures global == old(global) && tokens == old(tokens)
    {
      r := CheckUserStateInitialize(ctx, signatures, userStates, mints);
      if r.Pass? {
        CreateKeepsInvariants(userStates, tokens, ctx.tokenMint, ctx.signer);
        userStates := userStates[ctx.userState := UserState(0, ctx.tokenMint)];
      }
    }

    /** `deposit`: moves `amount` from the signer's token account into the pool,
        then credits the signer's record. Succeeds exactly when the accounts pass,
        the user holds `amount`, and neither the pool nor the record overflows. */
    method Deposit(ctx: TokenMoveAccounts, signatures: set<nat>, amount: U64) returns (r: Outcome<Error>)
      requires Valid()
      modifies this
      ensures Valid()
      ensures global == old(global)
      ensures r.Pass? <==>
                && CheckTokenMove(ctx, signatures, old(global), old(userStates), old(tokens), mints).Pass?
                && amount <= old(tokens)[ctx.userTokenAccount].amount
                && old(tokens)[ctx.tokenPool].amount + amount <= U64_MAX
                && old(userStates)[ctx.userState].amount + amount <= U64_MAX
      ensures r.Pass? ==>
                && userStates == old(userStates)[ctx.userState :=
                                   UserState(old(userStates)[ctx.userState].amount + amount, ctx.tokenMint)]
                && tokens == old(tokens)
                     [ctx.userTokenAccount := old(tokens)[ctx.userTokenAccount].(amount := old(tokens)[ctx.userTokenAccount].amount - amount)]
                     [ctx.tokenPool := old(tokens)[ctx.tokenPool].(amount := old(tokens)[ctx.tokenPool].amount + amount)]
      ensures r.Fail? ==> userStates == old(userStates) && tokens == old(tokens)
    {
      r := CheckTokenMove(ctx, signatures, global, userStates, tokens, mints);
      if r.Fail? {
        return;
      }
      TokenMovePins(ctx, signatures, global, userStates, tokens, mints);
      PinnedRecordHasMint(userStates, ctx.tokenMint, ctx.signer);
      var moved := Transfer(tokens, ctx.userTokenAccount, ctx.tokenPool, ctx.signer, signatures, [], amount);
      if moved.Failure? {
        r := Fail(TokenFailure(moved.error));
        return;
      }
      var credited := Credit(userStates[ctx.userState], amount);
      if credited.Failure? {
        r := Fail(credited.error);
        return;
      }
      DepositKeepsInvariants(userStates, tokens, ctx.userState, ctx.tokenPool, ctx.userTokenAccount, ctx.signer,
                             signatures, amount);
      tokens := moved.value;
      userStates := userStates[ctx.userState := credited.value];
    }

    /** `withdraw`: moves `amount` from the pool back to the signer's token account,
        the global authority signing through its seeds, then debits the signer's
        record. The transfer comes first, as written, but a debit that would go
        below zero aborts the whole instruction: the record and every token balance
        stay as they were. */
    method Withdraw(ctx: TokenMoveAccounts, signatures: set<nat>, amount: U64) returns (r: Outcome<Error>)
      requires Valid()
      modifies this
      ensures Valid()
      ensures global == old(global)
      ensures r.Pass? <==>
                && CheckTokenMove(ctx, signatures, old(global), old(userStates), old(tokens), mints).Pass?
                && amount <= old(tokens)[ctx.tokenPool].amount
                && old(tokens)[ctx.userTokenAccount].amount + amount <= U64_MAX
                && amount <= old(userStates)[ctx.userState].amount
      ensures r.Pass? ==>
                && userStates == old(userStates)[ctx.userState :=
                                   UserState(old(userStates)[ctx.userState].amount - amount, ctx.tokenMint)]
                && tokens == old(tokens)
                     [ctx.tokenPool := old(tokens)[ctx.tokenPool].(amount := old(tokens)[ctx.tokenPool].amount - amount)]
                     [ctx.userTokenAccount := old(tokens)[ctx.userTokenAccount].(amount := old(tokens)[ctx.userTokenAccount].amount + amount)]
      ensures r.Fail? ==> userStates == old(userStates) && tokens == old(tokens)
      ensures ctx.userState in old(userStates) && amount > old(userStates)[ctx.userState].amount ==>
                r.Fail? && userStates == old(userStates) && tokens == old(tokens)
    {
      r := CheckTokenMove(ctx, signatures, global, userStates, tokens, mints);
      if r.Fail? {
        return;
      }
      TokenMovePins(ctx, signatures, global, userStates, tokens, mints);
      PinnedRecordHasMint(userStates, ctx.tokenMint, ctx.signer);
      SignerSeedsMatchAuthority();
      assert CpiSigned(GlobalAuthority(), signatures, [GlobalAuthoritySignerSeeds()]) by {
        assert CreateProgramAddress([GlobalAuthoritySignerSeeds()][0]) == GlobalAuthority();
      }
      var moved := Transfer(tokens, ctx.tokenPool, ctx.userTokenAccount, ctx.globalAuthority, signatures,
                            [GlobalAuthoritySignerSeeds()], amount);
      if moved.Failure? {
        r := Fail(TokenFailure(moved.error));
        return;
      }
      var debited := Debit(userStates[ctx.userState], amount);
      if debited.Failure? {
        r := Fail(debited.error);
        return;
      }
      WithdrawKeepsInvariants(userStates, tokens, ctx.userState, ctx.tokenPool, ctx.userTokenAccount, signatures,
                              [GlobalAuthoritySignerSeeds()], amount);
      tokens := moved.value;
      userStates := userStates[ctx.userState := debited.value];
    }
  }

  /** The end-to-end run: the admin initializes, a user creates a record for a mint,
      deposits 10^12 and withdraws 10^11; along the way a second `initialize`, an
      over-withdrawal, a deposit naming another mint and a withdrawal naming a
      forged authority are all rejected. */
  method DepositThenWithdraw() returns (remaining: U64, pooled: U64, held: U64)
    ensures remaining == 900_000_000_000 && pooled == 900_000_000_000 && held == 100_000_000_000
  {
    var mint, otherMint, admin, user := Wallet(1), Wallet(2), Wallet(3), Wallet(4);
    var userTokens, poolTokens, otherTokens := Wallet(10), Wallet(11), Wallet(12);
    var v := new Vault({mint, otherMint}, map[
      userTokens := TokenAccount(mint, user, 1_000_000_000_000),
      poolTokens := TokenAccount(mint, GlobalAuthority(), 0),
      otherTokens := TokenAccount(otherMint, user, 5)]);

    var r := v.Initialize(InitializeAccounts(GlobalAuthority(), admin), {3});
    assert r.Pass?;
    r := v.Initialize(InitializeAccounts(GlobalAuthority(), user), {4});
    assert r == Fail(AlreadyInitialized) && v.global == Some(GlobalPool(admin));

    var record := UserStateAddress(mint, user);
    r := v.UserTokenPoolInitialize(UserStateInitializeAccounts(record, user, mint), {4});
    assert r.Pass? && v.userStates[record] == UserState(0, mint);

    var ctx := TokenMoveAccounts(record, poolTokens, userTokens, user, GlobalAuthority(), mint);
    r := v.Deposit(ctx, {4}, 1_000_000_000_000);
    assert r.Pass?;

    r := v.Deposit(ctx.(userTokenAccount := otherTokens), {4}, 1);
    assert r.Fail? && v.userStates[record].amount == 1_000_000_000_000;
    r := v.Withdraw(ctx, {4}, 1_000_000_000_001);
    assert r.Fail? && v.tokens[poolTokens].amount == 1_000_000_000_000;
    r := v.Withdraw(ctx.(globalAuthority := admin), {4}, 1);
    assert r.Fail?;

    r := v.Withdraw(ctx, {4}, 100_000_000_000);
    assert r.Pass?;
    remaining, pooled, held := v.userStates[record].amount, v.tokens[poolTokens].amount, v.tokens[userTokens].amount;
  }
}
