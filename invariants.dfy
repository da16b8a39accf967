/** The vault's invariants: each user's record keeps the mint of its address, and
    for every mint the program owes its users no more than the global authority's
    pools of that mint hold. */
module Invariants {
  import opened Wrappers
  import opened Keys
  import opened Totals
  import opened Token
  import opened Errors
  import opened Records

  /** What a record owes its user in `mint`. */
  function Due(s: UserState, mint: Pubkey): nat
  {
    if s.mint == mint then s.amount else 0
  }

  /** Per-record amounts owed in `mint`. */
  function Owed(states: map<Pubkey, UserState>, mint: Pubkey): map<Pubkey, nat>
  {
    map k | k in states :: Due(states[k], mint)
  }

  /** Per-account balances of `mint` held by the global authority. */
  function Pooled(tokens: map<Pubkey, TokenAccount>, mint: Pubkey): map<Pubkey, nat>
  {
    Holdings(tokens, OfMintAndOwner(mint, GlobalAuthority()))
  }

  /** The record at the address derived from (mint, user) is a record of `mint`. */
  ghost predicate MintsPinned(states: map<Pubkey, UserState>)
  {
    forall mint, user :: UserStateAddress(mint, user) in states ==> states[UserStateAddress(mint, user)].mint == mint
  }

  /** For every mint, the sum of the users' amounts is at most the pools' balance. */
  ghost predicate Solvent(states: map<Pubkey, UserState>, tokens: map<Pubkey, TokenAccount>)
  {
    forall mint :: Total(Owed(states, mint)) <= Total(Pooled(tokens, mint))
  }

  lemma OwedUpdate(states: map<Pubkey, UserState>, k: Pubkey, v: UserState, mint: Pubkey)
    ensures Owed(states[k := v], mint) == Owed(states, mint)[k := Due(v, mint)]
  {
  }

  /** Mint pinning: a record that passed the seeds check for `mint` is a record of `mint`. */
  lemma PinnedRecordHasMint(states: map<Pubkey, UserState>, mint: Pubkey, user: Pubkey)
    requires MintsPinned(states) && UserStateAddress(mint, user) in states
    ensures states[UserStateAddress(mint, user)].mint == mint
  {
  }

  /** A vault with no user records is solvent, whatever the token accounts hold. */
  lemma NoRecordsIsSolvent(tokens: map<Pubkey, TokenAccount>)
    ensures MintsPinned(map[]) && Solvent(map[], tokens)
  {
    forall mint ensures Total(Owed(map[], mint)) <= Total(Pooled(tokens, mint)) {
      assert Owed(map[], mint) == map[];
    }
  }

  /** Creating a record with amount 0 at its derived address keeps both invariants. */
  lemma {:induction false} CreateKeepsInvariants(states: map<Pubkey, UserState>, tokens: map<Pubkey, TokenAccount>,
                                                 mint: Pubkey, user: Pubkey)
    requires MintsPinned(states) && Solvent(states, tokens)
    requires UserStateAddress(mint, user) !in states
    ensures var after := states[UserStateAddress(mint, user) := UserState(0, mint)];
            MintsPinned(after) && Solvent(after, tokens)
  {
    var k := UserStateAddress(mint, user);
    var after := states[k := UserState(0, mint)];
    forall m, u | UserStateAddress(m, u) in after
      ensures after[UserStateAddress(m, u)].mint == m
    {
      DerivationsAreDistinct(m, u, mint, user);
    }
    forall m ensures Total(Owed(after, m)) <= Total(Pooled(tokens, m)) {
      OwedUpdate(states, k, UserState(0, mint), m);
      TotalUpdate(Owed(states, m), k, 0);
    }
  }

  /** A deposit (credit the record, move the tokens from a token account the global
      authority does not own into one of its pools of the record's mint) keeps both
      invariants. */
  lemma {:induction false} DepositKeepsInvariants(states: map<Pubkey, UserState>, tokens: map<Pubkey, TokenAccount>,
                                                  record: Pubkey, pool: Pubkey, source: Pubkey, authority: Pubkey,
                                                  signatures: set<nat>, amount: U64)
    requires MintsPinned(states) && Solvent(states, tokens)
    requires record in states && Credit(states[record], amount).Success?
    requires pool in tokens && tokens[pool].mint == states[record].mint && tokens[pool].owner == GlobalAuthority()
    requires source in tokens && tokens[source].owner != GlobalAuthority()
    requires Transfer(tokens, source, pool, authority, signatures, [], amount).Success?
    ensures var after := states[record := Credit(states[record], amount).value];
            var moved := Transfer(tokens, source, pool, authority, signatures, [], amount).value;
            MintsPinned(after) && Solvent(after, moved)
  {
    var credited := Credit(states[record], amount).value;
    var after := states[record := credited];
    var moved := Transfer(tokens, source, pool, authority, signatures, [], amount).value;
    forall m, u | UserStateAddress(m, u) in after
      ensures after[UserStateAddress(m, u)].mint == m
    {
    }
    forall m ensures Total(Owed(after, m)) <= Total(Pooled(moved, m)) {
      OwedUpdate(states, record, credited, m);
      TotalUpdate(Owed(states, m), record, Due(credited, m));
      TransferHoldings(tokens, source, pool, authority, signatures, [], amount, OfMintAndOwner(m, GlobalAuthority()));
    }
  }

  /** A withdrawal (debit the record, move the tokens out of one of the global
      authority's pools of the record's mint into an account it does not own) keeps
      both invariants. */
  lemma {:induction false} WithdrawKeepsInvariants(states: map<Pubkey, UserState>, tokens: map<Pubkey, TokenAccount>,
                                                   record: Pubkey, pool: Pubkey, destination: Pubkey,
                                                   signatures: set<nat>, signerSeeds: seq<seq<Seed>>, amount: U64)
    requires MintsPinned(states) && Solvent(states, tokens)
    requires record in states && Debit(states[record], amount).Success?
    requires pool in tokens && tokens[pool].mint == states[record].mint && tokens[pool].owner == GlobalAuthority()
    requires destination in tokens && tokens[destination].owner != GlobalAuthority()
    requires Transfer(tokens, pool, destination, GlobalAuthority(), signatures, signerSeeds, amount).Success?
    ensures var after := states[record := Debit(states[record], amount).value];
            var moved := Transfer(tokens, pool, destination, GlobalAuthority(), signatures, signerSeeds, amount).value;
            MintsPinned(after) && Solvent(after, moved)
  {
    var debited := Debit(states[record], amount).value;
    var after := states[record := debited];
    var moved := Transfer(tokens, pool, destination, GlobalAuthority(), signatures, signerSeeds, amount).value;
    forall m, u | UserStateAddress(m, u) in after
      ensures after[UserStateAddress(m, u)].mint == m
    {
    }
    forall m ensures Total(Owed(after, m)) <= Total(Pooled(moved, m)) {
      OwedUpdate(states, record, debited, m);
      TotalUpdate(Owed(states, m), record, Due(debited, m));
      TransferHoldings(tokens, pool, destination, GlobalAuthority(), signatures, signerSeeds, amount,
                       OfMintAndOwner(m, GlobalAuthority()));
    }
  }

  /** The credit of a deposit cannot overflow in a solvent vault: the record's
      amount is part of what the pools hold, the deposited tokens come from outside
      the pools, and all of them together are at most the mint's supply, a `u64`. */
  lemma {:induction false} CreditCannotOverflow(states: map<Pubkey, UserState>, tokens: map<Pubkey, TokenAccount>,
                                                record: Pubkey, source: Pubkey, amount: U64)
    requires Solvent(states, tokens)
    requires record in states && source in tokens
    requires tokens[source].mint == states[record].mint && tokens[source].owner != GlobalAuthority()
    requires amount <= tokens[source].amount
    requires Total(Holdings(tokens, OfMint(states[record].mint))) <= U64_MAX
    ensures Credit(states[record], amount).Success?
  {
    var mint := states[record].mint;
    TotalRemove(Owed(states, mint), record);
    var pooled := Pooled(tokens, mint);
    TotalUpdate(pooled, source, tokens[source].amount);
    TotalMonotone(pooled[source := tokens[source].amount], Holdings(tokens, OfMint(mint)));
  }

  /** With the debit compiled to wrap, a user who deposited nothing withdraws another
      user's deposit: the pool's transfer succeeds, the record wraps to almost 2^64,
      and the vault that was solvent owes more than its pool holds. The checked
      `Debit` rejects the same withdrawal. */
  lemma WrappingDebitBreaksSolvency()
    ensures var mint, alice, bob := Wallet(1), Wallet(2), Wallet(3);
            var pool, bobTokens := Wallet(4), Wallet(5);
            var aliceRecord, bobRecord := UserStateAddress(mint, alice), UserStateAddress(mint, bob);
            var states := map[aliceRecord := UserState(100, mint), bobRecord := UserState(0, mint)];
            var tokens := map[pool := TokenAccount(mint, GlobalAuthority(), 100), bobTokens := TokenAccount(mint, bob, 0)];
            var moved := Transfer(tokens, pool, bobTokens, GlobalAuthority(), {3}, [GlobalAuthoritySignerSeeds()], 100);
            && MintsPinned(states) && Solvent(states, tokens)
            && moved.Success?
            && !Solvent(states[bobRecord := WrappingDebit(states[bobRecord], 100)], moved.value)
            && Debit(states[bobRecord], 100) == Failure(ArithmeticUnderflow)
  {
    var mint, alice, bob := Wallet(1), Wallet(2), Wallet(3);
    var pool, bobTokens := Wallet(4), Wallet(5);
    var aliceRecord, bobRecord := UserStateAddress(mint, alice), UserStateAddress(mint, bob);
    DerivationsAreDistinct(mint, alice, mint, bob);
    var states := map[aliceRecord := UserState(100, mint), bobRecord := UserState(0, mint)];
    var tokens := map[pool := TokenAccount(mint, GlobalAuthority(), 100), bobTokens := TokenAccount(mint, bob, 0)];
    SignerSeedsMatchAuthority();
    assert CpiSigned(GlobalAuthority(), {3}, [GlobalAuthoritySignerSeeds()]) by {
      assert CreateProgramAddress([GlobalAuthoritySignerSeeds()][0]) == GlobalAuthority();
    }
    var moved := Transfer(tokens, pool, bobTokens, GlobalAuthority(), {3}, [GlobalAuthoritySignerSeeds()], 100);
    assert moved.Success?;

    forall m, u | UserStateAddress(m, u) in states
      ensures states[UserStateAddress(m, u)].mint == m
    {
      DerivationsAreDistinct(m, u, mint, alice);
      DerivationsAreDistinct(m, u, mint, bob);
    }
    forall m ensures Total(Owed(states, m)) <= Total(Pooled(tokens, m)) {
      assert Owed(states, m) == map[aliceRecord := Due(states[aliceRecord], m), bobRecord := 0];
      TotalOfPair(aliceRecord, bobRecord, Due(states[aliceRecord], m), 0);
      TotalRemove(Pooled(tokens, m), pool);
    }

    var after := states[bobRecord := WrappingDebit(states[bobRecord], 100)];
    assert Owed(after, mint) == map[aliceRecord := 100, bobRecord := U64_MAX + 1 - 100];
    TotalOfPair(aliceRecord, bobRecord, 100, U64_MAX + 1 - 100);
    assert Pooled(moved.value, mint) == map[pool := 0, bobTokens := 0];
    TotalOfPair(pool, bobTokens, 0, 0);
  }
}
