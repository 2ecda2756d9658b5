/**
 * The data the lottery program stores in its own accounts. The two program versions
 * store different vault-manager fields; `VaultManager` holds the union of both, and
 * each instruction reads and writes only the fields its version has.
 */
module Accounts {
  import opened Base
  import opened Keys

  /** The vault manager: configuration and draw state of one lottery. */
  datatype VaultManager = VaultManager(
    // first version
    mint: Address,
    vault: Address,
    tickets: Address,             // the ticket-token mint (both versions)
    cutoffTime: u64,              // seconds; 0 until the first ticket is bought
    drawDuration: u64,            // seconds from one cutoff to the next
    ticketPrice: u64,
    winningNumbers: Numbers,
    locked: bool,                 // set by draw, cleared by dispense
    // randomness-oracle version
    depositMint: Address,
    yieldMint: Address,
    depositVault: Address,
    yieldVault: Address,
    depositTokenReserve: u64,
    randomness: bool              // a randomness request is outstanding
  )

  /** A freshly created vault-manager account: every field zero. */
  const DefaultManager: VaultManager :=
    VaultManager(ZeroKey, ZeroKey, ZeroKey, 0, 0, 0, Zeros, false, ZeroKey, ZeroKey, ZeroKey, ZeroKey, 0, false)

  /** A ticket record, stored at the address derived from its numbers and the manager. */
  datatype Ticket = Ticket(mint: Address, vault: Address, tickets: Address, owner: Address, numbers: Numbers)

  /** A freshly created ticket account: every field zero. */
  const DefaultTicket: Ticket := Ticket(ZeroKey, ZeroKey, ZeroKey, ZeroKey, Zeros)

  /** The randomness client's state account (only the fields the shown instructions touch). */
  datatype VrfClient = VrfClient(maxResult: u64, vrf: Address, authority: Address)

  /** A freshly created client-state account: every field zero. */
  const DefaultClient: VrfClient := VrfClient(0, ZeroKey, ZeroKey)

  /**
   * What an address holds, for the instructions of the randomness-oracle version, which
   * create accounts of several kinds at once. Every kind is told apart by its type tag.
   */
  datatype AccountData =
    | ClientState(client: VrfClient)
    | Manager(manager: VaultManager)
    | TokenAccount(mint: Address, owner: Address, amount: nat)
    | Mint(authority: Address)
}
