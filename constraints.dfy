/** The account constraint sets (`#[derive(Accounts)]`) of the four instructions:
    what the framework checks about the accounts passed in before any instruction
    body runs. Each check returns the first failure in the framework's order (load
    every account in declaration order, then evaluate the constraints), or `Pass`. */
module Constraints {
  import opened Wrappers
  import opened Keys
  import opened Token
  import opened Errors
  import opened Records

  /** Accounts of `initialize` (the system program is not modelled). */
  datatype InitializeAccounts = InitializeAccounts(globalAuthority: Pubkey, admin: Pubkey)

  /** Accounts of `user_token_pool_initialize` (the program accounts are not modelled). */
  datatype UserStateInitializeAccounts =
    UserStateInitializeAccounts(userState: Pubkey, signer: Pubkey, tokenMint: Pubkey)

  /** Accounts of `deposit` and `withdraw`, whose constraint sets are identical. */
  datatype TokenMoveAccounts = TokenMoveAccounts(
    userState: Pubkey,
    tokenPool: Pubkey,
    userTokenAccount: Pubkey,
    signer: Pubkey,
    globalAuthority: Pubkey,
    tokenMint: Pubkey)

  /** `Initialize`: `admin` signs; `global_authority` is created (`init`) at the
      address derived from "Global Pool", so it must not exist yet. */
  function CheckInitialize(ctx: InitializeAccounts, signatures: set<nat>, global: Option<GlobalPool>)
    : (r: Outcome<Error>)
    ensures r.Pass? <==> IsSigner(ctx.admin, signatures) && ctx.globalAuthority == GlobalAuthority() && global.None?
    ensures global.Some? ==> r.Fail?
    ensures r == Fail(AlreadyInitialized) <==>
              IsSigner(ctx.admin, signatures) && ctx.globalAuthority == GlobalAuthority() && global.Some?
  {
    if !IsSigner(ctx.admin, signatures) then Fail(AccountNotSigner)
    else if ctx.globalAuthority != GlobalAuthority() then Fail(ConstraintSeeds)
    else if global.Some? then Fail(AlreadyInitialized)
    else Pass
  }

  /** `UserStateInitialize`: `signer` signs, `token_mint` is a mint, and `user_state`
      is created (`init`) at the address derived from (token_mint, signer). The
      global pool is not consulted. */
  function CheckUserStateInitialize(ctx: UserStateInitializeAccounts, signatures: set<nat>,
                                    states: map<Pubkey, UserState>, mints: set<Pubkey>)
    : (r: Outcome<Error>)
    ensures r.Pass? <==>
              && IsSigner(ctx.signer, signatures)
              && ctx.tokenMint in mints
              && ctx.userState == UserStateAddress(ctx.tokenMint, ctx.signer)
              && ctx.userState !in states
    ensures UserStateAddress(ctx.tokenMint, ctx.signer) in states ==> r.Fail?
  {
    if !IsSigner(ctx.signer, signatures) then Fail(AccountNotSigner)
    else if ctx.tokenMint !in mints then Fail(NotInitialized)
    else if ctx.userState != UserStateAddress(ctx.tokenMint, ctx.signer) then Fail(ConstraintSeeds)
    else if ctx.userState in states then Fail(AlreadyInitialized)
    else Pass
  }

  /** `DepositToken` and `WithdrawToken`: every account exists with its type, the
      signer signs, the user's record and the global authority sit at their derived
      addresses, the pool holds `token_mint` for the global authority, and the user's
      token account holds `token_mint` for the signer. */
  function CheckTokenMove(ctx: TokenMoveAccounts, signatures: set<nat>, global: Option<GlobalPool>,
                          states: map<Pubkey, UserState>, tokens: map<Pubkey, TokenAccount>,
                          mints: set<Pubkey>)
    : (r: Outcome<Error>)
    ensures r.Pass? <==>
              && ctx.userState in states
              && ctx.tokenPool in tokens
              && ctx.userTokenAccount in tokens
              && IsSigner(ctx.signer, signatures)
              && global.Some?
              && ctx.tokenMint in mints
              && ctx.userState == UserStateAddress(ctx.tokenMint, ctx.signer)
              && tokens[ctx.tokenPool].mint == ctx.tokenMint
              && tokens[ctx.tokenPool].owner == ctx.globalAuthority
              && tokens[ctx.userTokenAccount].mint == ctx.tokenMint
              && tokens[ctx.userTokenAccount].owner == ctx.signer
              && ctx.globalAuthority == GlobalAuthority()
    ensures r.Fail? ==> r.error in {NotInitialized, AccountNotSigner, ConstraintSeeds, ConstraintRaw}
  {
    // loading the accounts, in declaration order
    if ctx.userState !in states then Fail(NotInitialized)
    else if ctx.tokenPool !in tokens then Fail(NotInitialized)
    else if ctx.userTokenAccount !in tokens then Fail(NotInitialized)
    else if !IsSigner(ctx.signer, signatures) then Fail(AccountNotSigner)
    else if global.None? then Fail(NotInitialized)
    else if ctx.tokenMint !in mints then Fail(NotInitialized)
    // the constraints, in declaration order
    else if ctx.userState != UserStateAddress(ctx.tokenMint, ctx.signer) then Fail(ConstraintSeeds)
    else if tokens[ctx.tokenPool].mint != ctx.tokenMint then Fail(ConstraintRaw)
    else if tokens[ctx.tokenPool].owner != ctx.globalAuthority then Fail(ConstraintRaw)
    else if tokens[ctx.userTokenAccount].mint != ctx.tokenMint then Fail(ConstraintRaw)
    else if tokens[ctx.userTokenAccount].owner != ctx.signer then Fail(ConstraintRaw)
    else if ctx.globalAuthority != GlobalAuthority() then Fail(ConstraintSeeds)
    else Pass
  }

  /** Ownership pinning and authority isolation: once the accounts pass, the pool is
      owned by the canonical global authority, the user's token account by the
      signer, and the two are different accounts. */
  lemma TokenMovePins(ctx: TokenMoveAccounts, signatures: set<nat>, global: Option<GlobalPool>,
                      states: map<Pubkey, UserState>, tokens: map<Pubkey, TokenAccount>, mints: set<Pubkey>)
    requires CheckTokenMove(ctx, signatures, global, states, tokens, mints).Pass?
    ensures tokens[ctx.tokenPool].owner == GlobalAuthority()
    ensures tokens[ctx.userTokenAccount].owner == ctx.signer && ctx.signer.Wallet?
    ensures ctx.tokenPool != ctx.userTokenAccount
  {
  }
}
