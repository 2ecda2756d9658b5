/**
 * The first version of the lottery program: one lottery over one deposit mint,
 * with the instructions `initialize`, `buy`, `redeem`, `draw` and `dispense`.
 *
 * An instruction either returns `Ok` and its account writes take effect, or it
 * returns `Err` and every account is left exactly as it was (transaction atomicity).
 * Each instruction first checks its account constraints, then runs its handler; a
 * handler checks everything that can fail before any write is committed. The clock
 * is the parameter `now`.
 */
module NoLossLottery {
  import opened Base
  import opened Keys
  import opened Token
  import opened Accounts

  /** The principal held for `supply` tickets of price `price`, one ticket at a time. */
  ghost function Principal(price: nat, supply: nat): nat
  {
    if supply == 0 then 0 else Principal(price, supply - 1) + price
  }

  /** The principal is the ticket price times the number of tickets. */
  lemma {:induction false} PrincipalIsProduct(price: nat, supply: nat)
    ensures Principal(price, supply) == price * supply
  {
    if supply > 0 {
      PrincipalIsProduct(price, supply - 1);
    }
  }

  /** Every ticket record sits at the key of its own numbers, and none holds the zero numbers. */
  ghost predicate RecordsKeyed(tickets: map<Numbers, Ticket>)
  {
    forall k :: k in tickets ==> tickets[k].numbers == k && k != Zeros
  }

  /** Every ticket-token account is the associated account of its owner. */
  ghost predicate AssociatedHolders(l: Ledger, ticketsMint: Address)
  {
    forall a :: a in l ==> a == AssociatedAddress(l[a].owner, ticketsMint)
  }

  /** `buy` adds a record under fresh non-zero numbers: one more record, still keyed by its numbers. */
  lemma RecordAdded(tickets: map<Numbers, Ticket>, t: Ticket)
    requires RecordsKeyed(tickets) && t.numbers !in tickets && t.numbers != Zeros
    ensures RecordsKeyed(tickets[t.numbers := t]) && |tickets[t.numbers := t]| == |tickets| + 1
  {
  }

  /** `redeem` closes an existing record: one record fewer. */
  lemma RecordRemoved(tickets: map<Numbers, Ticket>, k: Numbers)
    requires RecordsKeyed(tickets) && k in tickets
    ensures RecordsKeyed(tickets - {k}) && |tickets - {k}| == |tickets| - 1
  {
    assert (tickets - {k}).Keys == tickets.Keys - {k};
  }

  /** Minting one ticket token to a user's associated account, created if needed. */
  lemma TokenIssued(l: Ledger, owner: Address, ticketsMint: Address)
    requires AssociatedHolders(l, ticketsMint)
    ensures var at := AssociatedAddress(owner, ticketsMint);
      AssociatedHolders(MintTo(InitIfNeeded(l, at, owner), at, 1), ticketsMint)
  {
  }

  /** Burning from an account keeps every account's owner. */
  lemma TokenBurnt(l: Ledger, at: Address, owner: Address, ticketsMint: Address)
    requires AssociatedHolders(l, ticketsMint) && at in l && Burn(l, at, 1, owner).Ok?
    ensures AssociatedHolders(Burn(l, at, 1, owner).value, ticketsMint)
  {
  }

  /**
   * The first step of `buy`: when no epoch is running (a zero cutoff), the clock starts
   * and the cutoff becomes `now + draw_duration`, which panics on u64 overflow.
   */
  function StartClock(manager: VaultManager, now: u64): (r: Result<VaultManager>)
    ensures r.Err? <==> manager.cutoffTime == 0 && now + manager.drawDuration >= U64_LIMIT
    ensures r.Err? ==> r.error == ArithmeticOverflow
    ensures r.Ok? && manager.cutoffTime != 0 ==> r.value == manager
    ensures r.Ok? && manager.cutoffTime == 0 ==>
      r.value == manager.(cutoffTime := now + manager.drawDuration) && r.value.cutoffTime >= now
  {
    if manager.cutoffTime == 0 then
      var cutoff := CheckedAdd(now, manager.drawDuration);
      if cutoff.Err? then Err(cutoff.error) else Ok(manager.(cutoffTime := cutoff.value))
    else Ok(manager)
  }

  class Lottery {
    /** The deposit token; every other account of the lottery is derived from it. */
    const mint: Address
    /** The vault-manager account. */
    var manager: VaultManager
    /** Ticket records, keyed by the numbers their address is derived from. */
    var tickets: map<Numbers, Ticket>
    /** All token accounts of the deposit mint: users' accounts, the vault and the prize account. */
    var deposits: Ledger
    /** All token accounts of the ticket-token mint (users' associated accounts). */
    var ticketAccounts: Ledger
    /** Supply of the ticket-token mint. */
    var ticketSupply: nat

    /** The lottery's derived accounts: vault, manager, ticket-token mint and prize account. */
    const vault: Address
    const managerKey: Address
    const ticketsMint: Address
    const prize: Address

    /** The user's associated ticket-token account. */
    function TicketAta(user: Address): Address { AssociatedAddress(user, ticketsMint) }

    /** What holds between instructions. */
    ghost predicate Valid()
      reads this
    {
      && manager.mint == mint && manager.vault == vault && manager.tickets == ticketsMint
      && vault in deposits && deposits[vault].owner == managerKey
      && prize in deposits && deposits[prize].owner == managerKey
      && RecordsKeyed(tickets)
      && AssociatedHolders(ticketAccounts, ticketsMint)
      // one ticket token per live ticket record
      && |tickets| == ticketSupply
      && Total(ticketAccounts) == ticketSupply
    }

    /** How far the vault balance exceeds the principal of the tickets in circulation. */
    ghost function Backing(): int
      reads this
      requires vault in deposits
    {
      deposits[vault].amount - Principal(manager.ticketPrice, ticketSupply)
    }

    /**
     * `initialize`: creates the vault, the manager, the ticket mint and the prize account.
     * `userAccounts` are the deposit-mint accounts that already exist; none of them can sit
     * at the vault's or the prize account's address, which only this instruction creates.
     */
    constructor Initialize(mint: Address, userAccounts: Ledger, drawDuration: u64, ticketPrice: u64)
      requires VaultAddress(mint) !in userAccounts && PrizeAddress(mint) !in userAccounts
      ensures Valid() && this.mint == mint
      ensures vault == VaultAddress(mint) && managerKey == ManagerAddress(mint)
      ensures ticketsMint == TicketsMintAddress(mint) && prize == PrizeAddress(mint)
      ensures manager.drawDuration == drawDuration && manager.ticketPrice == ticketPrice
      ensures manager.cutoffTime == 0 && !manager.locked && manager.winningNumbers == Zeros
      ensures manager == DefaultManager.(mint := mint, vault := VaultAddress(mint), tickets := TicketsMintAddress(mint),
                                         drawDuration := drawDuration, cutoffTime := 0, ticketPrice := ticketPrice)
      ensures tickets == map[] && ticketAccounts == map[] && ticketSupply == 0
      ensures deposits == userAccounts[VaultAddress(mint) := Account(ManagerAddress(mint), 0)]
                                      [PrizeAddress(mint) := Account(ManagerAddress(mint), 0)]
      ensures Backing() == 0
    {
      this.mint := mint;
      vault, managerKey, ticketsMint, prize :=
        VaultAddress(mint), ManagerAddress(mint), TicketsMintAddress(mint), PrizeAddress(mint);
      manager := DefaultManager.(mint := mint, vault := VaultAddress(mint), tickets := TicketsMintAddress(mint),
                                 drawDuration := drawDuration, cutoffTime := 0, ticketPrice := ticketPrice);
      tickets := map[];
      deposits := userAccounts[VaultAddress(mint) := Account(ManagerAddress(mint), 0)]
                              [PrizeAddress(mint) := Account(ManagerAddress(mint), 0)];
      ticketAccounts := map[];
      ticketSupply := 0;
    }

    /**
     * `initialize` called again on this lottery's mint: the vault's `init` finds the vault
     * already there, so the call fails and the running lottery keeps its cutoff, price
     * and balances.
     */
    method InitializeAgain(drawDuration: u64, ticketPrice: u64) returns (r: Result<()>)
      requires Valid()
      ensures r == Err(AccountAlreadyInUse)
      ensures unchanged(this)
    {
      // the vault is the first account `initialize` creates, and it exists while the lottery does
      if vault in deposits {
        return Err(AccountAlreadyInUse);
      }
      assert false;
    }

    /**
     * A `token::transfer` between two deposit-mint accounts. On failure nothing changes;
     * on success only the balances in `deposits` do.
     */
    method TransferDeposits(from: Address, to: Address, amount: nat, authority: Address) returns (r: Result<()>)
      requires Valid() && from in deposits && to in deposits
      modifies this
      ensures Valid()
      ensures var t := Transfer(old(deposits), from, to, amount, authority);
        && r == (if t.Ok? then Ok(()) else Err(t.error))
        && deposits == (if t.Ok? then t.value else old(deposits))
      ensures r.Err? ==> unchanged(this)
      ensures manager == old(manager) && tickets == old(tickets)
      ensures ticketAccounts == old(ticketAccounts) && ticketSupply == old(ticketSupply)
    {
      var t := Transfer(deposits, from, to, amount, authority);
      if t.Err? {
        return Err(t.error);
      }
      deposits := t.value;
      r := Ok(());
    }

    /**
     * The ticket-issuing writes of `buy`: the record for `numbers`, and one ticket token
     * minted to the user's associated account, which `init_if_needed` creates when missing.
     */
    method IssueTicket(user: Address, numbers: Numbers)
      requires Valid() && numbers !in tickets && numbers != Zeros
      modifies this
      ensures Valid()
      ensures tickets == old(tickets)[numbers := Ticket(mint, vault, ticketsMint, user, numbers)]
      ensures ticketAccounts == MintTo(InitIfNeeded(old(ticketAccounts), TicketAta(user), user), TicketAta(user), 1)
      ensures ticketSupply == old(ticketSupply) + 1
      ensures manager == old(manager) && deposits == old(deposits)
    {
      var ticket := Ticket(mint, vault, ticketsMint, user, numbers);
      var ata := TicketAta(user);
      TokenIssued(ticketAccounts, user, ticketsMint);
      RecordAdded(tickets, ticket);
      tickets := tickets[numbers := ticket];
      ticketAccounts := MintTo(InitIfNeeded(ticketAccounts, ata, user), ata, 1);
      ticketSupply := ticketSupply + 1;
    }

    /** The ticket-closing writes of `redeem`: one ticket token burnt and the record at `ticket` closed. */
    method CloseTicket(user: Address, ticket: Numbers)
      requires Valid() && ticket in tickets && TicketAta(user) in ticketAccounts
      requires Burn(ticketAccounts, TicketAta(user), 1, user).Ok?
      modifies this
      ensures Valid()
      ensures tickets == old(tickets) - {ticket}
      ensures Burn(old(ticketAccounts), TicketAta(user), 1, user) == Ok(ticketAccounts)
      ensures ticketSupply == old(ticketSupply) - 1
      ensures manager == old(manager) && deposits == old(deposits)
    {
      var ata := TicketAta(user);
      RecordRemoved(tickets, ticket);
      TokenBurnt(ticketAccounts, ata, user, ticketsMint);
      tickets := tickets - {ticket};
      ticketAccounts := Burn(ticketAccounts, ata, 1, user).value;
      ticketSupply := ticketSupply - 1;
    }

    /**
     * `buy(numbers)` by `user`, paying from the deposit-mint account `userDeposit`.
     * The ticket record is created with `init`, so buying numbers that already have a
     * record fails; the accounts that must already exist are loaded before that. The first purchase of an epoch starts the clock: a zero cutoff
     * becomes `now + draw_duration`.
     */
    method Buy(user: Address, userDeposit: Address, numbers: Numbers, now: u64) returns (r: Result<()>)
      requires Valid()
      modifies this
      ensures Valid()
      ensures r ==
        if userDeposit !in old(deposits) then Err(AccountNotInitialized)
        else if numbers in old(tickets) then Err(AccountAlreadyInUse)
        else if old(manager.cutoffTime) == 0 && now + old(manager.drawDuration) >= U64_LIMIT then Err(ArithmeticOverflow)
        else if numbers == Zeros then Err(InvalidNumbers)
        else if old(manager.locked) then Err(CallDispense)
        else if old(deposits)[userDeposit].amount < old(manager.ticketPrice) then Err(InsufficientFunds)
        else if old(deposits)[userDeposit].owner != user then Err(OwnerMismatch)
        else Ok(())
      ensures r.Err? ==> unchanged(this)
      ensures r.Ok? ==>
        && manager == old(manager).(cutoffTime :=
             if old(manager.cutoffTime) == 0 then now + old(manager.drawDuration) else old(manager.cutoffTime))
        && tickets == old(tickets)[numbers := Ticket(mint, vault, ticketsMint, user, numbers)]
        && Transfer(old(deposits), userDeposit, vault, old(manager.ticketPrice), user) == Ok(deposits)
        && ticketAccounts == MintTo(InitIfNeeded(old(ticketAccounts), TicketAta(user), user), TicketAta(user), 1)
        && ticketSupply == old(ticketSupply) + 1
      ensures r.Ok? && userDeposit != vault ==>
        && deposits[userDeposit].amount == old(deposits)[userDeposit].amount - old(manager.ticketPrice)
        && deposits[vault].amount == old(deposits)[vault].amount + old(manager.ticketPrice)
        && Backing() == old(Backing())
    {
      // account constraints: existing accounts are loaded before `init` creates the record
      if userDeposit !in deposits {
        return Err(AccountNotInitialized);
      }
      if numbers in tickets {
        return Err(AccountAlreadyInUse);
      }
      // handler; the manager write is committed only if the instruction succeeds
      var started := StartClock(manager, now);
      if started.Err? {
        return Err(started.error);
      }
      if numbers == Zeros {
        return Err(InvalidNumbers);
      }
      if started.value.locked {
        return Err(CallDispense);
      }
      r := Purchase(user, userDeposit, numbers, started.value);
    }

    /**
     * The rest of `buy` once its checks have passed: the price moves from `userDeposit`
     * to the vault, the ticket is issued, and the manager record `next` (the old one with
     * the clock possibly started) is stored.
     */
    method Purchase(user: Address, userDeposit: Address, numbers: Numbers, next: VaultManager) returns (r: Result<()>)
      requires Valid() && numbers !in tickets && numbers != Zeros && userDeposit in deposits
      requires next == manager.(cutoffTime := next.cutoffTime)
      modifies this
      ensures Valid()
      ensures r ==
        if old(deposits)[userDeposit].amount < old(manager.ticketPrice) then Err(InsufficientFunds)
        else if old(deposits)[userDeposit].owner != user then Err(OwnerMismatch)
        else Ok(())
      ensures r.Err? ==> unchanged(this)
      ensures r.Ok? ==>
        && manager == next
        && tickets == old(tickets)[numbers := Ticket(mint, vault, ticketsMint, user, numbers)]
        && Transfer(old(deposits), userDeposit, vault, old(manager.ticketPrice), user) == Ok(deposits)
        && ticketAccounts == MintTo(InitIfNeeded(old(ticketAccounts), TicketAta(user), user), TicketAta(user), 1)
        && ticketSupply == old(ticketSupply) + 1
      ensures r.Ok? && userDeposit != vault ==>
        && deposits[userDeposit].amount == old(deposits)[userDeposit].amount - old(manager.ticketPrice)
        && deposits[vault].amount == old(deposits)[vault].amount + old(manager.ticketPrice)
        && Backing() == old(Backing())
    {
      r := TransferDeposits(userDeposit, vault, next.ticketPrice, user);
      if r.Err? {
        return;
      }
      IssueTicket(user, numbers);
      manager := next;
    }

    /**
     * `redeem` by `user`: burns one of the user's ticket tokens, closes the ticket
     * record at key `ticket` and pays the ticket price from the vault to `userDeposit`.
     * Neither `locked` nor the record's owner is checked.
     */
    method Redeem(user: Address, ticket: Numbers, userDeposit: Address) returns (r: Result<()>)
      requires Valid()
      modifies this
      ensures Valid()
      ensures r ==
        if ticket !in old(tickets) then Err(AccountNotInitialized)
        else if TicketAta(user) !in old(ticketAccounts) then Err(AccountNotInitialized)
        else if userDeposit !in old(deposits) then Err(AccountNotInitialized)
        else if old(ticketAccounts)[TicketAta(user)].amount < 1 then Err(InsufficientFunds)
        else if old(deposits)[vault].amount < old(manager.ticketPrice) then Err(InsufficientFunds)
        else Ok(())
      ensures r.Err? ==> unchanged(this)
      ensures r.Ok? ==>
        && manager == old(manager)
        && tickets == old(tickets) - {ticket}
        && Burn(old(ticketAccounts), TicketAta(user), 1, user) == Ok(ticketAccounts)
        && ticketAccounts[TicketAta(user)].amount == old(ticketAccounts)[TicketAta(user)].amount - 1
        && ticketSupply == old(ticketSupply) - 1
        && Transfer(old(deposits), vault, userDeposit, old(manager.ticketPrice), managerKey) == Ok(deposits)
      ensures r.Ok? && userDeposit != vault ==>
        && deposits[userDeposit].amount == old(deposits)[userDeposit].amount + old(manager.ticketPrice)
        && deposits[vault].amount == old(deposits)[vault].amount - old(manager.ticketPrice)
        && Backing() == old(Backing())
    {
      // account constraints
      if ticket !in tickets || TicketAta(user) !in ticketAccounts || userDeposit !in deposits {
        return Err(AccountNotInitialized);
      }
      r := Refund(user, ticket, userDeposit);
    }

    /**
     * The handler of `redeem`, run once its accounts are in place. The burn is checked
     * first, as the program runs it first; its writes and the transfer's take effect
     * together, or not at all.
     */
    method Refund(user: Address, ticket: Numbers, userDeposit: Address) returns (r: Result<()>)
      requires Valid() && ticket in tickets && TicketAta(user) in ticketAccounts && userDeposit in deposits
      modifies this
      ensures Valid()
      ensures r ==
        if old(ticketAccounts)[TicketAta(user)].amount < 1 then Err(InsufficientFunds)
        else if old(deposits)[vault].amount < old(manager.ticketPrice) then Err(InsufficientFunds)
        else Ok(())
      ensures r.Err? ==> unchanged(this)
      ensures r.Ok? ==>
        && manager == old(manager)
        && tickets == old(tickets) - {ticket}
        && Burn(old(ticketAccounts), TicketAta(user), 1, user) == Ok(ticketAccounts)
        && ticketAccounts[TicketAta(user)].amount == old(ticketAccounts)[TicketAta(user)].amount - 1
        && ticketSupply == old(ticketSupply) - 1
        && Transfer(old(deposits), vault, userDeposit, old(manager.ticketPrice), managerKey) == Ok(deposits)
      ensures r.Ok? && userDeposit != vault ==>
        && deposits[userDeposit].amount == old(deposits)[userDeposit].amount + old(manager.ticketPrice)
        && deposits[vault].amount == old(deposits)[vault].amount - old(manager.ticketPrice)
        && Backing() == old(Backing())
    {
      var ata := TicketAta(user);
      var burnt := Burn(ticketAccounts, ata, 1, user);
      if burnt.Err? {
        return Err(burnt.error);
      }
      r := TransferDeposits(vault, userDeposit, manager.ticketPrice, managerKey);
      if r.Err? {
        return;
      }
      CloseTicket(user, ticket);
    }

    /**
     * `draw`: once a ticket has started the clock and the cutoff has passed, fix the
     * winning numbers and lock `buy` until `dispense`.
     */
    method Draw(now: u64) returns (r: Result<()>)
      requires Valid()
      modifies this
      ensures Valid()
      ensures r ==
        if old(manager.cutoffTime) == 0 then Err(NoTicketsPurchased)
        else if old(manager.locked) then Err(CallDispense)
        else if now < old(manager.cutoffTime) then Err(TimeRemaining)
        else Ok(())
      ensures r.Err? ==> unchanged(this)
      ensures r.Ok? ==> manager == old(manager).(winningNumbers := DrawnNumbers, locked := true)
      ensures tickets == old(tickets) && deposits == old(deposits)
      ensures ticketAccounts == old(ticketAccounts) && ticketSupply == old(ticketSupply)
    {
      var cutoffTime := manager.cutoffTime;
      if cutoffTime == 0 {
        return Err(NoTicketsPurchased);
      }
      if manager.locked {
        return Err(CallDispense);
      }
      if now < cutoffTime {
        return Err(TimeRemaining);
      }
      manager := manager.(winningNumbers := DrawnNumbers, locked := true);
      r := Ok(());
    }

    /**
     * `dispense(numbers)`: the caller must pass the current winning numbers. The next
     * epoch's cutoff is set, `buy` is unlocked and the winning numbers are zeroed. The
     * ticket account is `init_if_needed`: when no record exists for `numbers`, the one
     * just created holds zero numbers and is closed again, and no token moves; otherwise
     * the whole balance of `prizeAccount` is paid to `userDeposit`. Neither account is tied to
     * the lottery beyond holding deposit tokens: `prizeAccount` need only be owned by the manager,
     * and `userDeposit` need not belong to the ticket's owner.
     */
    method Dispense(numbers: Numbers, prizeAccount: Address, userDeposit: Address, now: u64) returns (r: Result<()>)
      requires Valid()
      modifies this
      ensures Valid()
      ensures r ==
        if prizeAccount !in old(deposits) || userDeposit !in old(deposits) then Err(AccountNotInitialized)
        else if numbers != old(manager.winningNumbers) then Err(PassInWinningPDA)
        else if now + old(manager.drawDuration) >= U64_LIMIT then Err(ArithmeticOverflow)
        else if numbers in old(tickets) && old(deposits)[prizeAccount].owner != managerKey then Err(OwnerMismatch)
        else Ok(())
      ensures r.Err? ==> unchanged(this)
      ensures r.Ok? ==>
        manager == old(manager).(cutoffTime := now + old(manager.drawDuration), locked := false, winningNumbers := Zeros)
      ensures r.Ok? && numbers !in old(tickets) ==> deposits == old(deposits)
      ensures r.Ok? && numbers in old(tickets) ==>
        Transfer(old(deposits), prizeAccount, userDeposit, old(deposits)[prizeAccount].amount, managerKey) == Ok(deposits)
      ensures r.Ok? && numbers in old(tickets) && prizeAccount != userDeposit ==>
        && deposits[prizeAccount].amount == 0
        && deposits[userDeposit].amount == old(deposits)[userDeposit].amount + old(deposits)[prizeAccount].amount
      ensures tickets == old(tickets) && ticketAccounts == old(ticketAccounts) && ticketSupply == old(ticketSupply)
      // principal stays backed unless the vault itself is passed as the prize account
      ensures r.Ok? && prizeAccount != vault ==> Backing() >= old(Backing())
    {
      // account constraints
      var record := if numbers in tickets then tickets[numbers] else DefaultTicket;
      if prizeAccount !in deposits || userDeposit !in deposits {
        return Err(AccountNotInitialized);
      }
      // handler; the manager writes are committed only if the instruction succeeds
      if numbers != manager.winningNumbers {
        return Err(PassInWinningPDA);
      }
      var cutoff := CheckedAdd(now, manager.drawDuration);
      if cutoff.Err? {
        return Err(cutoff.error);
      }
      var mgr := manager.(cutoffTime := cutoff.value, locked := false, winningNumbers := Zeros);
      if record.numbers == Zeros {
        // no winner: the record created by `init_if_needed` is closed again
        manager := mgr;
        return Ok(());
      }
      r := TransferDeposits(prizeAccount, userDeposit, deposits[prizeAccount].amount, managerKey);
      if r.Err? {
        return;
      }
      manager := mgr;
    }
  }

  /**
   * A lottery whose vault holds exactly the principal of its tickets: the vault balance
   * is the ticket price times the ticket-token supply. `initialize` establishes this, and
   * `buy` and `redeem` keep it when the user's account is not the vault.
   */
  lemma FullyBacked(l: Lottery)
    requires l.Valid() && l.Backing() == 0
    ensures l.deposits[l.vault].amount == l.manager.ticketPrice * l.ticketSupply
  {
    PrincipalIsProduct(l.manager.ticketPrice, l.ticketSupply);
  }
}
