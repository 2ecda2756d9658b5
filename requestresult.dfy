/**
 * `request_result`, the instruction of the randomness-oracle version that asks the
 * Switchboard oracle for the draw's randomness. It writes nothing of its own: it loads
 * the vault manager for reading, checks three guards in order and then hands the
 * request to the oracle program, whose answer is the parameter `oracleAccepts`.
 */
module RequestResult {
  import opened Base
  import opened Keys
  import opened Accounts
  import opened InitState

  /** A randomness request on the oracle account `vrf`, signed by the client state at `signer`. */
  datatype RandomnessRequest = RandomnessRequest(vrf: Address, signer: Address)

  /**
   * The state account must hold a client state and the vault manager a manager record;
   * once both are loaded, the state must sit at the address derived from
   * `[STATE_SEED, vrf, authority]` and name `vrf` as its oracle account. `validate`
   * accepts everything, so the guards of `actuate` follow: a started epoch, no
   * outstanding request, and a passed cutoff.
   */
  function RequestResult(accounts: map<Address, AccountData>, stateKey: Address, vrf: Address, authority: Address,
                         managerKey: Address, now: u64, oracleAccepts: bool): (r: Result<RandomnessRequest>)
    ensures r.Ok? <==>
      && stateKey in accounts && accounts[stateKey].ClientState?
      && stateKey == StateAddress(vrf, authority) && accounts[stateKey].client.vrf == vrf
      && managerKey in accounts && accounts[managerKey].Manager?
      && accounts[managerKey].manager.cutoffTime != 0 && !accounts[managerKey].manager.randomness
      && now >= accounts[managerKey].manager.cutoffTime
      && oracleAccepts
    ensures r.Ok? ==> r.value == RandomnessRequest(vrf, StateAddress(vrf, authority))
    // both accounts are loaded before any constraint is checked
    ensures r == Err(AccountNotInitialized) <==> !AccountsLoaded(accounts, stateKey, managerKey)
    ensures AccountsLoaded(accounts, stateKey, managerKey) && stateKey != StateAddress(vrf, authority) ==>
      r == Err(ConstraintSeeds)
    ensures AccountsLoaded(accounts, stateKey, managerKey) && stateKey == StateAddress(vrf, authority)
            && accounts[stateKey].client.vrf != vrf ==>
      r == Err(ConstraintRaw)
    // once the accounts are in place, the three guards in order, then the oracle
    ensures AccountsInPlace(accounts, stateKey, vrf, authority, managerKey) ==>
      var m := accounts[managerKey].manager;
      r == if m.cutoffTime == 0 then Err(NoTicketsPurchased)
           else if m.randomness then Err(AcquiringRandomness)
           else if now < m.cutoffTime then Err(TimeRemaining)
           else if !oracleAccepts then Err(VrfRequestFailed)
           else Ok(RandomnessRequest(vrf, stateKey))
  {
    if stateKey !in accounts || !accounts[stateKey].ClientState? then Err(AccountNotInitialized)
    else if managerKey !in accounts || !accounts[managerKey].Manager? then Err(AccountNotInitialized)
    else if stateKey != StateAddress(vrf, authority) then Err(ConstraintSeeds)
    else if accounts[stateKey].client.vrf != vrf then Err(ConstraintRaw)
    else
      var m := accounts[managerKey].manager;
      if m.cutoffTime == 0 then Err(NoTicketsPurchased)
      else if m.randomness then Err(AcquiringRandomness)
      else if now < m.cutoffTime then Err(TimeRemaining)
      else if !oracleAccepts then Err(VrfRequestFailed)
      else Ok(RandomnessRequest(vrf, stateKey))
  }

  /** The state account holds a client state and the vault manager a manager record. */
  ghost predicate AccountsLoaded(accounts: map<Address, AccountData>, stateKey: Address, managerKey: Address)
  {
    && stateKey in accounts && accounts[stateKey].ClientState?
    && managerKey in accounts && accounts[managerKey].Manager?
  }

  /** The account constraints of `request_result` hold. */
  ghost predicate AccountsInPlace(accounts: map<Address, AccountData>, stateKey: Address, vrf: Address,
                                  authority: Address, managerKey: Address)
  {
    && stateKey in accounts && accounts[stateKey].ClientState?
    && stateKey == StateAddress(vrf, authority) && accounts[stateKey].client.vrf == vrf
    && managerKey in accounts && accounts[managerKey].Manager?
  }

  /** A request is only ever issued by the client state derived from the oracle account and the authority. */
  lemma RequestSignedByDerivedState(accounts: map<Address, AccountData>, stateKey: Address, vrf: Address,
                                    authority: Address, managerKey: Address, now: u64)
    requires RequestResult(accounts, stateKey, vrf, authority, managerKey, now, true).Ok?
    ensures stateKey == StateAddress(vrf, authority)
    ensures forall v, a :: StateAddress(v, a) == stateKey ==> v == vrf && a == authority
  {
    forall v, a | StateAddress(v, a) == stateKey
      ensures v == vrf && a == authority
    {
      StateAddressInjective(v, a, vrf, authority);
    }
  }

  /**
   * A lottery just set up by `init_state` has no running epoch, so no randomness can be
   * requested for it, whatever the clock says.
   */
  lemma FreshLotteryCannotRequest(accounts: map<Address, AccountData>, stateKey: Address, vrf: Address,
                                  authority: Address, managerKey: Address, now: u64, oracleAccepts: bool,
                                  params: InitStateParams, depositMint: Address, yieldMint: Address)
    requires AccountsInPlace(accounts, stateKey, vrf, authority, managerKey)
    requires InitialManager(params, depositMint, yieldMint).Ok?
    requires accounts[managerKey] == Manager(InitialManager(params, depositMint, yieldMint).value)
    ensures RequestResult(accounts, stateKey, vrf, authority, managerKey, now, oracleAccepts) == Err(NoTicketsPurchased)
  {
  }

  /** Requesting again while a request is outstanding fails, and so does requesting before the cutoff. */
  lemma RequestNeedsIdleManagerPastCutoff(accounts: map<Address, AccountData>, stateKey: Address, vrf: Address,
                                          authority: Address, managerKey: Address, now: u64, oracleAccepts: bool)
    requires RequestResult(accounts, stateKey, vrf, authority, managerKey, now, oracleAccepts).Ok?
    ensures !accounts[managerKey].manager.randomness
    ensures 0 < accounts[managerKey].manager.cutoffTime <= now
  {
  }
}
