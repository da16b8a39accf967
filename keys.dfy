/** Account addresses, program-derived addresses and signing.

    A program-derived address is a function of its seeds that no private key can
    sign for. Here the derivation is the `ProgramAddress` constructor itself, so it
    is injective by construction, and a derived address is never a wallet key. */
module Keys {

  datatype Pubkey =
    | Wallet(id: nat)                    // a key with a private key (users, the admin, mints)
    | ProgramAddress(seeds: seq<Seed>)   // derived from this program's id and the seeds

  datatype Seed =
    | Label(text: string)                // a literal byte string such as "Global Pool"
    | KeyBytes(key: Pubkey)              // the 32 bytes of a key (`key.as_ref()`)
    | BumpByte(bump: bv8)                // the bump byte appended by the derivation

  /** The literal seed of the global authority. */
  const GLOBAL_POOL_SEED: string := "Global Pool"

  /** The runtime's address creation from a full seed list (bump included). */
  function CreateProgramAddress(seeds: seq<Seed>): Pubkey
  {
    ProgramAddress(seeds)
  }

  /** The bump the runtime's search settles on. The search itself (off-curve test
      of a hash) is not part of this model; any fixed choice per seed list is. */
  function CanonicalBump(seeds: seq<Seed>): bv8
  {
    255
  }

  /** `find_program_address`: the derived address and the bump it was found with. */
  function FindProgramAddress(seeds: seq<Seed>): (r: (Pubkey, bv8))
    ensures r.0 == CreateProgramAddress(seeds + [BumpByte(r.1)])
  {
    var bump := CanonicalBump(seeds);
    (CreateProgramAddress(seeds + [BumpByte(bump)]), bump)
  }

  /** Seeds of the global authority: `[b"Global Pool"]`. */
  function GlobalPoolSeeds(): seq<Seed>
  {
    [Label(GLOBAL_POOL_SEED)]
  }

  /** Seeds of a user's state record: `[token_mint.key(), signer.key()]`. */
  function UserStateSeeds(mint: Pubkey, user: Pubkey): seq<Seed>
  {
    [KeyBytes(mint), KeyBytes(user)]
  }

  /** The address of the `GlobalPool` record, which is also the pools' authority. */
  function GlobalAuthority(): Pubkey
  {
    FindProgramAddress(GlobalPoolSeeds()).0
  }

  /** The address of the `UserState` record of (`mint`, `user`). */
  function UserStateAddress(mint: Pubkey, user: Pubkey): Pubkey
  {
    FindProgramAddress(UserStateSeeds(mint, user)).0
  }

  /** The seeds `withdraw` attaches so the runtime signs as the global authority. */
  function GlobalAuthoritySignerSeeds(): seq<Seed>
  {
    GlobalPoolSeeds() + [BumpByte(FindProgramAddress(GlobalPoolSeeds()).1)]
  }

  /** Address determinism and uniqueness: one state record per (mint, user), none of
      them the global authority, and the authority cannot sign a transaction itself. */
  lemma DerivationsAreDistinct(m1: Pubkey, u1: Pubkey, m2: Pubkey, u2: Pubkey)
    ensures UserStateAddress(m1, u1) == UserStateAddress(m2, u2) <==> m1 == m2 && u1 == u2
    ensures UserStateAddress(m1, u1) != GlobalAuthority()
    ensures !GlobalAuthority().Wallet? && !UserStateAddress(m1, u1).Wallet?
  {
    var s1, s2 := UserStateAddress(m1, u1).seeds, UserStateAddress(m2, u2).seeds;
    if s1 == s2 {
      assert s1[0] == s2[0] && s1[1] == s2[1];
    }
    assert |UserStateAddress(m1, u1).seeds| != |GlobalAuthority().seeds|;
  }

  /** The signer seeds of `withdraw` recreate exactly the global authority's address. */
  lemma SignerSeedsMatchAuthority()
    ensures CreateProgramAddress(GlobalAuthoritySignerSeeds()) == GlobalAuthority()
  {
  }

  /** `is_signer` of a transaction: only keys with a private key can sign one. */
  predicate IsSigner(k: Pubkey, signatures: set<nat>)
  {
    k.Wallet? && k.id in signatures
  }

  /** Signers seen by a cross-program call: the transaction's signers plus every
      address the calling program re-derives from the seeds it attaches. */
  predicate CpiSigned(k: Pubkey, signatures: set<nat>, signerSeeds: seq<seq<Seed>>)
  {
    IsSigner(k, signatures) || exists i :: 0 <= i < |signerSeeds| && CreateProgramAddress(signerSeeds[i]) == k
  }
}
