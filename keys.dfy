/**
 * Account addresses. A program-derived address is computed from a program id and an
 * ordered list of seeds; the model keeps the program and the seeds themselves as the
 * address, which makes derivation injective by construction (the hash, the bump search
 * and the off-curve test stay abstract).
 */
module Keys {

  /** `Named` stands for a key the model does not derive (a wallet, a mint, a program id). */
  datatype Address = Named(id: nat) | Derived(program: Address, seeds: seq<Seed>)

  /** A seed is either raw bytes or the 32 bytes of a key (`key.as_ref()`). */
  datatype Seed = Bytes(bytes: seq<bv8>) | Key(key: Address)

  /** `Pubkey::default()`, the all-zero key held by fields an instruction never writes. */
  const ZeroKey: Address := Named(0)

  /** The lottery program's id (`declare_id!`). */
  const LotteryProgram: Address := Named(1)

  /** The associated-token-account program and the token program. */
  const AssociatedTokenProgram: Address := Named(2)
  const TokenProgram: Address := Named(3)

  /** The seed that prefixes the randomness-client state address; its bytes are not part of this model. */
  const STATE_SEED: seq<bv8>

  /** An address derived from `seeds` under the lottery program. */
  function Pda(seeds: seq<Seed>): Address
  {
    Derived(LotteryProgram, seeds)
  }

  /** The associated token account of `owner` for `mint`. */
  function AssociatedAddress(owner: Address, mint: Address): Address
  {
    Derived(AssociatedTokenProgram, [Key(owner), Key(TokenProgram), Key(mint)])
  }

  // ---- seed layout of the first program version (initialize/buy/redeem/draw/dispense) ----

  /** Vault of a token: seeds `[mint]` (both program versions). */
  function VaultAddress(mint: Address): Address
  {
    Pda([Key(mint)])
  }

  /** Vault manager: seeds `[mint, vault]`. */
  function ManagerAddress(mint: Address): Address
  {
    Pda([Key(mint), Key(VaultAddress(mint))])
  }

  /** Ticket-token mint: seeds `[mint, vault, vault_manager]`. */
  function TicketsMintAddress(mint: Address): Address
  {
    Pda([Key(mint), Key(VaultAddress(mint)), Key(ManagerAddress(mint))])
  }

  /** Prize account: seeds `[mint, vault, vault_manager, tickets]`. */
  function PrizeAddress(mint: Address): Address
  {
    Pda([Key(mint), Key(VaultAddress(mint)), Key(ManagerAddress(mint)), Key(TicketsMintAddress(mint))])
  }

  /** Ticket record: seeds `[numbers, vault_manager]`. */
  function TicketAddress(numbers: seq<bv8>, manager: Address): Address
  {
    Pda([Bytes(numbers), Key(manager)])
  }

  // ---- seed layout of the randomness-oracle version (init_state/request_result) ----

  /** Randomness-client state: seeds `[STATE_SEED, vrf, authority]`. */
  function StateAddress(vrf: Address, authority: Address): Address
  {
    Pda([Bytes(STATE_SEED), Key(vrf), Key(authority)])
  }

  /** Vault manager: seeds `[deposit_mint, yield_mint, deposit_vault, yield_vault]`. */
  function PairManagerAddress(depositMint: Address, yieldMint: Address): Address
  {
    Pda([Key(depositMint), Key(yieldMint), Key(VaultAddress(depositMint)), Key(VaultAddress(yieldMint))])
  }

  /** Ticket-token mint: the manager's four seeds followed by the manager. */
  function PairTicketsMintAddress(depositMint: Address, yieldMint: Address): Address
  {
    Pda([Key(depositMint), Key(yieldMint), Key(VaultAddress(depositMint)), Key(VaultAddress(yieldMint)),
         Key(PairManagerAddress(depositMint, yieldMint))])
  }

  // ---- what injectivity buys ----

  /** One lottery's ticket records are keyed by their numbers alone, and two lotteries never share a record. */
  lemma TicketAddressInjective(n1: seq<bv8>, m1: Address, n2: seq<bv8>, m2: Address)
    ensures TicketAddress(n1, m1) == TicketAddress(n2, m2) <==> n1 == n2 && m1 == m2
  {
  }

  /** The five accounts of one first-version lottery sit at five different addresses. */
  lemma LotteryAddressesDistinct(mint: Address, numbers: seq<bv8>)
    ensures VaultAddress(mint) != ManagerAddress(mint)
    ensures VaultAddress(mint) != TicketsMintAddress(mint) && VaultAddress(mint) != PrizeAddress(mint)
    ensures ManagerAddress(mint) != TicketsMintAddress(mint) && ManagerAddress(mint) != PrizeAddress(mint)
    ensures TicketsMintAddress(mint) != PrizeAddress(mint)
    ensures TicketAddress(numbers, ManagerAddress(mint)) !in
      {VaultAddress(mint), ManagerAddress(mint), TicketsMintAddress(mint), PrizeAddress(mint)}
  {
  }

  /** A vault address determines its mint, in both program versions. */
  lemma VaultAddressInjective(m1: Address, m2: Address)
    ensures VaultAddress(m1) == VaultAddress(m2) <==> m1 == m2
  {
  }

  /** Distinct (deposit, yield) mint pairs give distinct managers and distinct ticket mints. */
  lemma PairAddressesInjective(d1: Address, y1: Address, d2: Address, y2: Address)
    ensures PairManagerAddress(d1, y1) == PairManagerAddress(d2, y2) <==> d1 == d2 && y1 == y2
    ensures PairTicketsMintAddress(d1, y1) == PairTicketsMintAddress(d2, y2) <==> d1 == d2 && y1 == y2
  {
  }

  /** In the randomness-oracle layout the vaults, the manager and the ticket mint never collide. */
  lemma PairAddressesDistinct(depositMint: Address, yieldMint: Address)
    ensures PairManagerAddress(depositMint, yieldMint) != VaultAddress(depositMint)
    ensures PairManagerAddress(depositMint, yieldMint) != VaultAddress(yieldMint)
    ensures PairTicketsMintAddress(depositMint, yieldMint) !in
      {VaultAddress(depositMint), VaultAddress(yieldMint), PairManagerAddress(depositMint, yieldMint)}
    ensures VaultAddress(depositMint) == VaultAddress(yieldMint) <==> depositMint == yieldMint
  {
  }

  /** A client-state address determines the oracle account and the authority it was derived from. */
  lemma StateAddressInjective(v1: Address, a1: Address, v2: Address, a2: Address)
    ensures StateAddress(v1, a1) == StateAddress(v2, a2) <==> v1 == v2 && a1 == a2
  {
  }
}
