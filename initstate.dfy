/**
 * `init_state`, the set-up instruction of the randomness-oracle version of the lottery:
 * it creates the randomness client's state account, one vault for each of the deposit
 * and yield mints, the vault manager and the ticket-token mint, after checking its
 * parameters.
 */
module InitState {
  import opened Base
  import opened Keys
  import opened Accounts

  /** The largest result the randomness client may ask for; its value is not part of this model. */
  const MAX_RESULT: u64

  /** The instruction's parameters (the client-state bump is not used by the instruction). */
  datatype InitStateParams = InitStateParams(maxResult: u64, drawDuration: u64, ticketPrice: u64)

  /**
   * `validate`: the requested maximum result, the ticket price and the draw duration are
   * checked in this order, then the oracle account must parse as a Switchboard VRF account
   * (`vrfIsSwitchboard`, decided by code outside this model).
   */
  function Validate(params: InitStateParams, vrfIsSwitchboard: bool): (r: Result<()>)
    ensures r.Ok? <==>
      params.maxResult <= MAX_RESULT && params.ticketPrice > 0 && params.drawDuration > 0 && vrfIsSwitchboard
    ensures params.maxResult > MAX_RESULT ==> r == Err(MaxResultExceedsMaximum)
    ensures params.maxResult <= MAX_RESULT && params.ticketPrice == 0 ==> r == Err(InvalidTicketPrice)
    ensures params.maxResult <= MAX_RESULT && params.ticketPrice > 0 && params.drawDuration == 0 ==>
      r == Err(InvalidDrawDuration)
    ensures params.maxResult <= MAX_RESULT && params.ticketPrice > 0 && params.drawDuration > 0 && !vrfIsSwitchboard ==>
      r == Err(InvalidSwitchboardVrfAccount)
  {
    if params.maxResult > MAX_RESULT then Err(MaxResultExceedsMaximum)
    else if params.ticketPrice <= 0 then Err(InvalidTicketPrice)
    else if params.drawDuration <= 0 then Err(InvalidDrawDuration)
    else if !vrfIsSwitchboard then Err(InvalidSwitchboardVrfAccount)
    else Ok(())
  }

  /**
   * The maximum result `actuate` stores: a requested 0 means "the largest allowed".
   * Whatever `validate` lets through is stored within the bound.
   */
  function StoredMaxResult(requested: u64): (m: u64)
    ensures requested <= MAX_RESULT ==> m <= MAX_RESULT
    ensures requested != 0 ==> m == requested
    ensures requested == 0 ==> m == MAX_RESULT
  {
    if requested == 0 then MAX_RESULT else requested
  }

  /** After a passing `validate`, the stored maximum result never exceeds `MAX_RESULT`. */
  lemma ValidatedMaxResultBounded(params: InitStateParams, vrfIsSwitchboard: bool)
    requires Validate(params, vrfIsSwitchboard).Ok?
    ensures StoredMaxResult(params.maxResult) <= MAX_RESULT
    ensures params.maxResult != 0 ==> StoredMaxResult(params.maxResult) == params.maxResult
  {
  }

  /**
   * The manager record `actuate` writes into the freshly created (all-zero) manager account.
   * The reserve is `10 * ticket_price`, which aborts the instruction on u64 overflow.
   */
  function InitialManager(params: InitStateParams, depositMint: Address, yieldMint: Address): (r: Result<VaultManager>)
    ensures r.Ok? <==> 10 * params.ticketPrice < U64_LIMIT
    ensures r.Err? ==> r.error == ArithmeticOverflow
    ensures r.Ok? ==>
      && r.value.drawDuration == params.drawDuration && r.value.cutoffTime == 0
      && r.value.ticketPrice == params.ticketPrice
      && r.value.depositMint == depositMint && r.value.depositVault == VaultAddress(depositMint)
      && r.value.yieldMint == yieldMint && r.value.yieldVault == VaultAddress(yieldMint)
      && r.value.tickets == PairTicketsMintAddress(depositMint, yieldMint)
      && r.value.depositTokenReserve == 10 * params.ticketPrice
    // no other field is written: clearing the written ones gives back the zero record
    ensures r.Ok? ==>
      r.value.(drawDuration := 0, ticketPrice := 0, depositMint := ZeroKey, depositVault := ZeroKey,
               yieldMint := ZeroKey, yieldVault := ZeroKey, tickets := ZeroKey, depositTokenReserve := 0)
      == DefaultManager
  {
    var reserve := CheckedMul(10, params.ticketPrice);
    if reserve.Err? then Err(reserve.error)
    else
      Ok(DefaultManager.(drawDuration := params.drawDuration, cutoffTime := 0, ticketPrice := params.ticketPrice,
                         depositMint := depositMint, depositVault := VaultAddress(depositMint),
                         yieldMint := yieldMint, yieldVault := VaultAddress(yieldMint),
                         tickets := PairTicketsMintAddress(depositMint, yieldMint),
                         depositTokenReserve := reserve.value))
  }

  /** Every client state this program creates sits at its derived address and has a bounded maximum result. */
  ghost predicate ClientsWellFormed(accounts: map<Address, AccountData>)
  {
    forall a :: a in accounts && accounts[a].ClientState? ==>
      && accounts[a].client.maxResult <= MAX_RESULT
      && a == StateAddress(accounts[a].client.vrf, accounts[a].client.authority)
  }

  /** Every vault manager's vaults and ticket mint exist and are controlled by that manager. */
  ghost predicate ManagersWellFormed(accounts: map<Address, AccountData>)
  {
    forall a :: a in accounts && accounts[a].Manager? ==> ManagerAccountsExist(accounts, a, accounts[a].manager)
  }

  /** A token account of `mint` at `at`, whose authority is `owner`. */
  ghost predicate ControlledTokenAccount(accounts: map<Address, AccountData>, at: Address, mint: Address, owner: Address)
  {
    at in accounts && accounts[at].TokenAccount? && accounts[at].mint == mint && accounts[at].owner == owner
  }

  /** The accounts a manager at `key` names: both vaults and the ticket mint, all under its authority. */
  ghost predicate ManagerAccountsExist(accounts: map<Address, AccountData>, key: Address, m: VaultManager)
  {
    && ControlledTokenAccount(accounts, m.depositVault, m.depositMint, key)
    && ControlledTokenAccount(accounts, m.yieldVault, m.yieldMint, key)
    && m.tickets in accounts && accounts[m.tickets] == Mint(key)
  }

  /** All accounts of the oracle-version program and of the token program, by address. */
  class Registry {
    var accounts: map<Address, AccountData>

    ghost predicate Valid()
      reads this
    {
      ClientsWellFormed(accounts) && ManagersWellFormed(accounts)
    }

    /** A cluster holding only token mints and token accounts. */
    constructor (existing: map<Address, AccountData>)
      requires forall a :: a in existing ==> existing[a].Mint? || existing[a].TokenAccount?
      ensures Valid() && accounts == existing
    {
      accounts := existing;
    }

    /**
     * `init_state`: the framework first loads the two mints, then creates the five new
     * accounts (each `init` fails when its address already holds an account, so equal
     * deposit and yield mints fail at the second vault), then `validate` and `actuate` run. Nothing is written unless all of
     * it succeeds.
     */
    method InitState(vrf: Address, authority: Address, depositMint: Address, yieldMint: Address,
                     params: InitStateParams, vrfIsSwitchboard: bool) returns (r: Result<()>)
      requires Valid()
      modifies this
      ensures Valid()
      ensures r ==
        if depositMint !in old(accounts) || !old(accounts)[depositMint].Mint? then Err(AccountNotInitialized)
        else if yieldMint !in old(accounts) || !old(accounts)[yieldMint].Mint? then Err(AccountNotInitialized)
        else if StateAddress(vrf, authority) in old(accounts) then Err(AccountAlreadyInUse)
        else if VaultAddress(depositMint) in old(accounts) then Err(AccountAlreadyInUse)
        else if VaultAddress(yieldMint) in old(accounts) || yieldMint == depositMint then Err(AccountAlreadyInUse)
        else if PairManagerAddress(depositMint, yieldMint) in old(accounts) then Err(AccountAlreadyInUse)
        else if PairTicketsMintAddress(depositMint, yieldMint) in old(accounts) then Err(AccountAlreadyInUse)
        else if Validate(params, vrfIsSwitchboard).Err? then Validate(params, vrfIsSwitchboard)
        else if 10 * params.ticketPrice >= U64_LIMIT then Err(ArithmeticOverflow)
        else Ok(())
      ensures r.Err? ==> unchanged(this)
      ensures r.Ok? ==>
        var managerKey := PairManagerAddress(depositMint, yieldMint);
        accounts == old(accounts)
          [StateAddress(vrf, authority) := ClientState(VrfClient(StoredMaxResult(params.maxResult), vrf, authority))]
          [VaultAddress(depositMint) := TokenAccount(depositMint, managerKey, 0)]
          [VaultAddress(yieldMint) := TokenAccount(yieldMint, managerKey, 0)]
          [managerKey := Manager(InitialManager(params, depositMint, yieldMint).value)]
          [PairTicketsMintAddress(depositMint, yieldMint) := Mint(managerKey)]
    {
      var stateKey := StateAddress(vrf, authority);
      var depositVault, yieldVault := VaultAddress(depositMint), VaultAddress(yieldMint);
      var managerKey := PairManagerAddress(depositMint, yieldMint);
      var ticketsKey := PairTicketsMintAddress(depositMint, yieldMint);
      // account constraints: the existing accounts are loaded first, then the `init`
      // accounts are created, each in the order the accounts are declared
      if depositMint !in accounts || !accounts[depositMint].Mint? {
        return Err(AccountNotInitialized);
      }
      if yieldMint !in accounts || !accounts[yieldMint].Mint? {
        return Err(AccountNotInitialized);
      }
      if stateKey in accounts {
        return Err(AccountAlreadyInUse);
      }
      if depositVault in accounts {
        return Err(AccountAlreadyInUse);
      }
      // the deposit vault now exists, so a yield vault at the same address cannot be created
      if yieldVault in accounts || yieldVault == depositVault {
        VaultAddressInjective(depositMint, yieldMint);
        return Err(AccountAlreadyInUse);
      }
      VaultAddressInjective(depositMint, yieldMint);
      if managerKey in accounts {
        return Err(AccountAlreadyInUse);
      }
      if ticketsKey in accounts {
        return Err(AccountAlreadyInUse);
      }
      var valid := Validate(params, vrfIsSwitchboard);
      if valid.Err? {
        return valid;
      }
      // actuate: the client state
      var state := DefaultClient;
      state := state.(maxResult := StoredMaxResult(params.maxResult));
      state := state.(vrf := vrf, authority := authority);
      // actuate: the vault manager
      var manager := InitialManager(params, depositMint, yieldMint);
      if manager.Err? {
        return Err(manager.error);
      }
      PairAddressesDistinct(depositMint, yieldMint);
      accounts := accounts[stateKey := ClientState(state)]
                          [depositVault := TokenAccount(depositMint, managerKey, 0)]
                          [yieldVault := TokenAccount(yieldMint, managerKey, 0)]
                          [managerKey := Manager(manager.value)]
                          [ticketsKey := Mint(managerKey)];
      r := Ok(());
    }
  }
}
