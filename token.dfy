/** The part of the SPL token program this vault relies on: token accounts and the
    `Transfer` instruction, which moves a balance between two accounts of one mint
    or fails and changes nothing. */
module Token {
  import opened Wrappers
  import opened Keys
  import opened Totals

  /** An SPL token account: which mint it holds, who may move it, and how much. */
  datatype TokenAccount = TokenAccount(mint: Pubkey, owner: Pubkey, amount: U64)

  datatype TokenError =
    | InvalidAccountData          // an account passed is not a token account
    | InsufficientFunds
    | MintMismatch
    | OwnerMismatch
    | MissingRequiredSignature
    | Overflow

  /** `Transfer { from: source, to: destination, authority }` of `amount`, as the
      token program checks it: funds, then mints, then the owner and its signature;
      a transfer to the same account is a successful no-op. */
  function Transfer(accounts: map<Pubkey, TokenAccount>, source: Pubkey, destination: Pubkey,
                    authority: Pubkey, signatures: set<nat>, signerSeeds: seq<seq<Seed>>, amount: U64)
    : (r: Result<map<Pubkey, TokenAccount>, TokenError>)
    ensures r.Success? <==>
              && source in accounts && destination in accounts
              && amount <= accounts[source].amount
              && accounts[source].mint == accounts[destination].mint
              && authority == accounts[source].owner
              && CpiSigned(authority, signatures, signerSeeds)
              && (source == destination || accounts[destination].amount + amount <= U64_MAX)
    ensures r == Failure(InsufficientFunds) <==>
              source in accounts && destination in accounts && amount > accounts[source].amount
    ensures r.Success? ==>
              && r.value.Keys == accounts.Keys
              && (forall k :: k in accounts && k != source && k != destination ==> r.value[k] == accounts[k])
              && r.value[source].mint == accounts[source].mint && r.value[source].owner == accounts[source].owner
              && r.value[destination].mint == accounts[destination].mint
              && r.value[destination].owner == accounts[destination].owner
    ensures r.Success? && source != destination ==>
              && r.value[source].amount == accounts[source].amount - amount
              && r.value[destination].amount == accounts[destination].amount + amount
    ensures r.Success? && source == destination ==> r.value == accounts
  {
    if source !in accounts || destination !in accounts then Failure(InvalidAccountData)
    else
      var from, to := accounts[source], accounts[destination];
      if from.amount < amount then Failure(InsufficientFunds)
      else if from.mint != to.mint then Failure(MintMismatch)
      else if authority != from.owner then Failure(OwnerMismatch)
      else if !CpiSigned(authority, signatures, signerSeeds) then Failure(MissingRequiredSignature)
      else if source == destination then Success(accounts)
      else if to.amount + amount > U64_MAX then Failure(Overflow)
      else
        Success(accounts[source := from.(amount := from.amount - amount)]
                        [destination := to.(amount := to.amount + amount)])
  }

  /** Balance of one account, counted when `pick` accepts its mint and owner. */
  function Counted(a: TokenAccount, pick: (Pubkey, Pubkey) -> bool): nat
  {
    if pick(a.mint, a.owner) then a.amount else 0
  }

  /** Per-account balances of the accounts `pick` selects, zero elsewhere. */
  function Holdings(accounts: map<Pubkey, TokenAccount>, pick: (Pubkey, Pubkey) -> bool): map<Pubkey, nat>
  {
    map k | k in accounts :: Counted(accounts[k], pick)
  }

  /** Selects the accounts of one mint. */
  function OfMint(mint: Pubkey): (Pubkey, Pubkey) -> bool
  {
    (m: Pubkey, o: Pubkey) => m == mint
  }

  /** Selects the accounts of one mint held by one owner. */
  function OfMintAndOwner(mint: Pubkey, owner: Pubkey): (Pubkey, Pubkey) -> bool
  {
    (m: Pubkey, o: Pubkey) => m == mint && o == owner
  }

  lemma HoldingsUpdate(accounts: map<Pubkey, TokenAccount>, k: Pubkey, v: TokenAccount,
                       pick: (Pubkey, Pubkey) -> bool)
    ensures Holdings(accounts[k := v], pick) == Holdings(accounts, pick)[k := Counted(v, pick)]
  {
  }

  /** Rewriting two distinct accounts changes the selected total by their
      differences. */
  lemma HoldingsTwoUpdates(accounts: map<Pubkey, TokenAccount>, k1: Pubkey, v1: TokenAccount,
                           k2: Pubkey, v2: TokenAccount, pick: (Pubkey, Pubkey) -> bool)
    requires k1 in accounts && k2 in accounts && k1 != k2
    ensures Total(Holdings(accounts[k1 := v1][k2 := v2], pick)) + Counted(accounts[k1], pick) + Counted(accounts[k2], pick)
            == Total(Holdings(accounts, pick)) + Counted(v1, pick) + Counted(v2, pick)
  {
    HoldingsUpdate(accounts, k1, v1, pick);
    TotalUpdate(Holdings(accounts, pick), k1, Counted(v1, pick));
    HoldingsUpdate(accounts[k1 := v1], k2, v2, pick);
    TotalUpdate(Holdings(accounts[k1 := v1], pick), k2, Counted(v2, pick));
  }

  /** What a successful transfer does to the total held by the accounts `pick`
      selects: it gains `amount` when only the destination is selected, loses it when
      only the source is, and is unchanged otherwise. */
  lemma TransferHoldings(accounts: map<Pubkey, TokenAccount>, source: Pubkey,
                         destination: Pubkey, authority: Pubkey, signatures: set<nat>,
                         signerSeeds: seq<seq<Seed>>, amount: U64,
                         pick: (Pubkey, Pubkey) -> bool)
    requires Transfer(accounts, source, destination, authority, signatures, signerSeeds, amount).Success?
    ensures var after := Transfer(accounts, source, destination, authority, signatures, signerSeeds, amount).value;
            Total(Holdings(after, pick)) + (if source != destination && pick(accounts[source].mint, accounts[source].owner) then amount else 0)
            == Total(Holdings(accounts, pick)) + (if source != destination && pick(accounts[destination].mint, accounts[destination].owner) then amount else 0)
  {
    if source != destination {
      var from, to := accounts[source], accounts[destination];
      var from', to' := from.(amount := from.amount - amount), to.(amount := to.amount + amount);
      assert Transfer(accounts, source, destination, authority, signatures, signerSeeds, amount).value
             == accounts[source := from'][destination := to'];
      HoldingsTwoUpdates(accounts, source, from', destination, to', pick);
    }
  }

  /** Conservation: a transfer never creates or destroys tokens of any mint. */
  lemma TransferConservesSupply(accounts: map<Pubkey, TokenAccount>, source: Pubkey, destination: Pubkey,
                                authority: Pubkey, signatures: set<nat>, signerSeeds: seq<seq<Seed>>,
                                amount: U64, mint: Pubkey)
    requires Transfer(accounts, source, destination, authority, signatures, signerSeeds, amount).Success?
    ensures var after := Transfer(accounts, source, destination, authority, signatures, signerSeeds, amount).value;
            Total(Holdings(after, OfMint(mint))) == Total(Holdings(accounts, OfMint(mint)))
  {
    TransferHoldings(accounts, source, destination, authority, signatures, signerSeeds, amount, OfMint(mint));
  }

  /** Authority isolation: without seeds attached by the program, no transaction can
      move tokens out of an account whose owner is a program-derived address. */
  lemma DerivedOwnerNeedsSeeds(accounts: map<Pubkey, TokenAccount>, source: Pubkey, destination: Pubkey,
                               authority: Pubkey, signatures: set<nat>, amount: U64)
    requires source in accounts && accounts[source].owner.ProgramAddress?
    ensures Transfer(accounts, source, destination, authority, signatures, [], amount).Failure?
  {
  }
}
