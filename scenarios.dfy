/**
 * Runs of the first program version, written as client code: each method sets up a
 * lottery, calls its instructions and asserts what the instruction contracts imply.
 */
module Scenarios {
  import opened Base
  import opened Keys
  import opened Token
  import opened Accounts
  import opened NoLossLottery

  const DepositMint: Address := Named(5)
  const Alice: Address := Named(10)
  const Mallory: Address := Named(11)
  const Bob: Address := Named(12)
  const AliceDeposit: Address := Named(20)
  const MalloryDeposit: Address := Named(21)
  const BobDeposit: Address := Named(22)
  const OtherNumbers: Numbers := [7, 7, 7, 7, 7, 7]

  /** A lottery with a 60-second epoch and a ticket price of 10; Alice holds 100 tokens, Mallory 10, Bob none. */
  method NewLottery() returns (l: Lottery)
    ensures fresh(l) && l.Valid()
    ensures l.manager.cutoffTime == 0 && !l.manager.locked && l.manager.winningNumbers == Zeros
    ensures l.manager.drawDuration == 60 && l.manager.ticketPrice == 10
    ensures l.tickets == map[] && l.ticketSupply == 0
    ensures AliceDeposit in l.deposits && l.deposits[AliceDeposit] == Account(Alice, 100)
    ensures MalloryDeposit in l.deposits && l.deposits[MalloryDeposit] == Account(Mallory, 10)
    ensures BobDeposit in l.deposits && l.deposits[BobDeposit] == Account(Bob, 0)
    ensures l.deposits[l.vault] == Account(l.managerKey, 0)
    ensures l.vault != AliceDeposit && l.vault != MalloryDeposit && l.vault != BobDeposit
  {
    var users := map[AliceDeposit := Account(Alice, 100), MalloryDeposit := Account(Mallory, 10),
                     BobDeposit := Account(Bob, 0)];
    l := new Lottery.Initialize(DepositMint, users, 60, 10);
  }

  /** Numbers already bought under this manager cannot be bought again, by anyone. */
  method DuplicateBuyFails()
  {
    var l := NewLottery();
    var r := l.Buy(Alice, AliceDeposit, DrawnNumbers, 1000);
    assert r == Ok(());
    var before := l.deposits;
    r := l.Buy(Mallory, MalloryDeposit, DrawnNumbers, 1001);
    assert r == Err(AccountAlreadyInUse);
    assert l.deposits == before && l.tickets[DrawnNumbers].owner == Alice;
  }

  /** Without the ticket price in the paying account, `buy` fails and the clock does not start. */
  method BrokeBuyerFails()
  {
    var l := NewLottery();
    var r := l.Buy(Bob, BobDeposit, DrawnNumbers, 1000);
    assert r == Err(InsufficientFunds);
    assert l.manager.cutoffTime == 0 && l.tickets == map[];
    // paying from someone else's account fails too
    r := l.Buy(Bob, AliceDeposit, DrawnNumbers, 1000);
    assert r == Err(OwnerMismatch);
    // and the zero numbers are refused
    r := l.Buy(Alice, AliceDeposit, Zeros, 1000);
    assert r == Err(InvalidNumbers);
  }

  /** Alice buys the numbers the draw picks at time 1000, which starts a 60-second epoch. */
  method AliceBuys() returns (l: Lottery)
    ensures fresh(l) && l.Valid()
    ensures l.manager.cutoffTime == 1060 && l.manager.drawDuration == 60 && l.manager.ticketPrice == 10
    ensures !l.manager.locked
    ensures DrawnNumbers in l.tickets && OtherNumbers !in l.tickets && l.ticketSupply == 1
    ensures AliceDeposit in l.deposits && l.deposits[l.vault].amount == 10
    ensures MalloryDeposit in l.deposits && l.deposits[MalloryDeposit] == Account(Mallory, 10)
    ensures l.vault != MalloryDeposit
  {
    l := NewLottery();
    var r := l.Buy(Alice, AliceDeposit, DrawnNumbers, 1000);
    assert r == Ok(());
  }

  /** The draw refuses to run before the cutoff and runs at it. */
  method DrawAtCutoff() returns (l: Lottery)
    ensures fresh(l) && l.Valid()
    ensures l.manager.drawDuration == 60 && l.manager.ticketPrice == 10
    ensures l.manager.locked && l.manager.winningNumbers == DrawnNumbers
    ensures DrawnNumbers in l.tickets && OtherNumbers !in l.tickets && l.ticketSupply == 1
    ensures AliceDeposit in l.deposits && l.deposits[l.vault].amount == 10
    ensures MalloryDeposit in l.deposits && l.deposits[MalloryDeposit] == Account(Mallory, 10)
    ensures l.vault != MalloryDeposit
  {
    l := AliceBuys();
    var r := l.Draw(1059);
    assert r == Err(TimeRemaining);
    r := l.Draw(1060);
    assert r == Ok(());
  }

  /** While the draw is locked, buying fails; dispensing the drawn numbers reopens the lottery. */
  method DispenseReopens()
  {
    var l := DrawAtCutoff();
    var r := l.Buy(Alice, AliceDeposit, OtherNumbers, 1061);
    assert r == Err(CallDispense);
    r := l.Dispense(DrawnNumbers, l.prize, AliceDeposit, 1100);
    assert r == Ok(());
    assert l.manager.cutoffTime == 1160 && !l.manager.locked && l.manager.winningNumbers == Zeros;
  }

  /**
   * After a dispense the winning numbers are zero, so `dispense` with zero numbers passes
   * its check again, by anyone and at any time, and pushes the next cutoff further out.
   */
  method ZeroDispensePostponesDraw()
  {
    var l := DrawAtCutoff();
    var r := l.Dispense(DrawnNumbers, l.prize, AliceDeposit, 1100);
    assert r == Ok(());
    r := l.Dispense(Zeros, l.prize, MalloryDeposit, 1150);
    assert r == Ok(());
    assert l.manager.cutoffTime == 1210;
    r := l.Draw(1200);
    assert r == Err(TimeRemaining);
  }

  /**
   * `dispense` pays whichever deposit account the caller names: anyone who knows the
   * drawn numbers can collect the prize of Alice's ticket.
   */
  method DispenseToCaller()
  {
    var l := DrawAtCutoff();
    var r := l.Dispense(DrawnNumbers, l.prize, MalloryDeposit, 1100);
    assert r == Ok(());
  }

  /**
   * The prize account of `dispense` is only required to hold deposit tokens under the
   * manager's authority, and the vault does: passing the vault pays out the principal,
   * leaving the ticket in circulation without backing.
   */
  method DispenseFromVault()
  {
    var l := DrawAtCutoff();
    var r := l.Dispense(DrawnNumbers, l.vault, MalloryDeposit, 1100);
    assert r == Ok(());
    assert l.deposits[MalloryDeposit].amount == 20 && l.deposits[l.vault].amount == 0;
    assert l.ticketSupply == 1 && l.Backing() < 0;
  }

  /** Mallory buys other numbers after Alice, in the same epoch. */
  method MalloryBuysToo() returns (l: Lottery)
    ensures fresh(l) && l.Valid()
    ensures DrawnNumbers in l.tickets && OtherNumbers in l.tickets && l.ticketSupply == 2
    ensures MalloryDeposit in l.deposits && l.deposits[MalloryDeposit] == Account(Mallory, 0)
    ensures l.TicketAta(Mallory) in l.ticketAccounts && l.ticketAccounts[l.TicketAta(Mallory)].amount >= 1
    ensures l.deposits[l.vault].amount == 20 && l.manager.ticketPrice == 10
  {
    l := AliceBuys();
    var r := l.Buy(Mallory, MalloryDeposit, OtherNumbers, 1010);
    assert r == Ok(());
  }

  /** `redeem` does not look at the record's owner: Mallory, holding a ticket token, closes Alice's record. */
  method RedeemOthersRecord()
  {
    var l := MalloryBuysToo();
    var r := l.Redeem(Mallory, DrawnNumbers, MalloryDeposit);
    assert r == Ok(());
    assert DrawnNumbers !in l.tickets && OtherNumbers in l.tickets && l.ticketSupply == 1;
    assert l.deposits[MalloryDeposit].amount == 10;
  }
}
