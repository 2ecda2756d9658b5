# No-loss lottery program, modelled in Dafny

The no-loss lottery is a Solana program written with the Anchor framework. Users
deposit a token to buy a ticket for a 6-byte number combination. The deposit goes
to a vault and can be redeemed. A draw fixes the winning combination, and `dispense`
pays the prize account's balance to a winner.

The model covers three parts of the program:

- **The first program version** (`lib.rs`, module `NoLossLottery`). It has the
  instructions `initialize`, `buy`, `redeem`, `draw` and `dispense`. They run over
  one vault manager, the ticket records, the deposit-token accounts and the
  ticket-token accounts. `Lottery` is a class: `initialize` is its constructor, and
  each other instruction is a method returning a `Result`. On `Err` nothing changes
  (transaction atomicity). On `Ok` the method states every field write and every
  token move.
- **The `init_state` instruction** of the randomness-oracle version (module
  `InitState`). It has a parameter validator, and an actuator that creates the
  client state, both vaults, the vault manager and the ticket mint. These accounts
  live in one registry of typed accounts.
- **The `request_result` guard** (module `RequestResult`). It is a pure function
  of the accounts. It returns the randomness request the program would send, or
  the error that stops it.

The supporting modules are:

- `Base`: `u64`, the 6-byte combinations, the error codes and checked arithmetic.
- `Keys`: program-derived addresses. They are kept as their seeds, so derivation is
  injective.
- `Token`: the token program's transfer, mint-to and burn, with the checks they run
  before moving anything.
- `Accounts`: the stored records.

The module `Scenarios` holds client code for the first version. Its assertions are
proved from the instruction contracts alone:

- Buying the same numbers twice fails.
- A buyer without funds fails.
- The draw is refused before the cutoff.
- `dispense` with zero numbers postpones the draw.
- Anyone can collect a prize into their own account.
- Passing the vault as the prize account pays out principal (`DispenseFromVault`).
- Another user closes Alice's record (`RedeemOthersRecord`).

The central invariants are these:

- **`Lottery.Valid`.** Ticket records sit under their own non-zero numbers. There is
  one ticket token per live record. Every ticket-token account is its owner's
  associated account. This holds under this lottery's own instructions; see
  "Left out" for what the model does not cover.
- **`Lottery.Backing`.** This is the vault balance minus the tickets' principal.
  It is 0 after `initialize`. `buy` and `redeem` keep it whenever the user's deposit
  account is not the vault itself: a redeem paid into the vault raises it, and a
  purchase paid from the vault lowers it. By `FullyBacked`, a zero backing means the
  vault holds exactly `ticket_price × supply`.

Behaviours of the code that are modelled as written:

- `redeem` checks neither `locked` nor the record's owner. It closes whichever
  record of the lottery is passed and burns a token from the caller's account.
- `dispense` pays the whole balance of the prize account to whichever deposit
  account the caller names. It does not check `locked`.
- The only constraint on the prize account of `dispense` is that it holds deposit
  tokens. The payout then needs the manager's authority over it. The vault meets
  both, so passing the vault pays out principal, and `Backing` falls below 0.
- After a dispense the winning numbers are all zero. A later `dispense` with zero
  numbers passes its check and moves the next cutoff.
- `draw` stores the constant combination `[1, 2, 3, 4, 5, 6]`.
- `now + draw_duration` and `10 * ticket_price` are `u64` operations. The model
  makes an overflow abort the instruction (`ArithmeticOverflow`), which is how a
  program built with overflow checks behaves.
- `initialize` does not validate the price or the duration. It stores them verbatim
  and sets the cutoff to 0; the first `buy` starts the clock. Calling it again for a
  mint that already has a lottery fails at the vault's `init` and changes nothing.
- `draw` checks `cutoff == 0`, then `locked`, then `now < cutoff`, with the errors
  `NoTicketsPurchased`, `CallDispense` and `TimeRemaining`. `draw` does not move the
  cutoff; `dispense` does.
- There is no prize-consumed flag. A second `dispense` with the same numbers fails
  with `PassInWinningPDA`, because the winning numbers were zeroed. The prize is
  whatever the prize account holds; there is no yield or AMM logic.
- A ticket's owner is a stored field, and redeeming needs only a ticket token.
  Redeemed records are closed, not kept.
- The framework checks accounts in three passes: it first loads the accounts that
  must already exist, in declaration order; then it creates the `init` and
  `init_if_needed` accounts; then it checks the `seeds`, `has_one` and `constraint`
  clauses of the loaded accounts. When several account checks would fail, the model
  reports the first failure in that order.

## Model

| member | source | states |
|---|---|---|
| `Base.CheckedAdd` | programs/no-loss-lottery/src/lib.rs:48-49 | The overflow check aborts (`ArithmeticOverflow`) on exactly the sums that a wrapping build would compute wrongly, so a sum that passes is never below its first operand. A wrapped sum would fall below that operand, e.g. a cutoff before `now`. |
| `Base.CheckedMul` | programs/no-loss-lottery/src/actions/init_state.rs:125 | The overflow check aborts on exactly the products that a wrapping build would compute wrongly. A wrapped product would be smaller than the true one, e.g. a reserve below `10 × ticket_price`. |
| `Token.Transfer` | programs/no-loss-lottery/src/lib.rs:70-83 | Fails with `InsufficientFunds`, then `OwnerMismatch`, exactly when the source is short or not signed by its owner. On success: the same accounts and owners; `amount` moves from source to destination; nothing moves on a self-transfer; no other account changes; total supply is kept. |
| `Token.MintTo` | programs/no-loss-lottery/src/lib.rs:85-104 | The destination gains `amount`; every other account is untouched; the total grows by `amount`. |
| `Token.Burn` | programs/no-loss-lottery/src/lib.rs:116-130 | Fails exactly when the account is short or the signer is not its owner. On success it loses `amount`, others are untouched, and the total falls by `amount`. |
| `Token.InitIfNeeded` | programs/no-loss-lottery/src/lib.rs:332-336 | An existing account is kept as is; a missing one is created empty for the owner; the total is kept. |
| `Keys.TicketAddressInjective` | programs/no-loss-lottery/src/lib.rs:325-330 | Two ticket addresses are equal exactly when both the numbers and the manager are, so a record is keyed by its numbers within one lottery. |
| `Keys.LotteryAddressesDistinct` | programs/no-loss-lottery/src/lib.rs:263-293 | The vault, manager, ticket mint, prize account and any ticket record of one lottery are pairwise distinct. |
| `Keys.VaultAddressInjective` | programs/no-loss-lottery/src/actions/init_state.rs:33-45 | A vault address determines its mint. |
| `Keys.PairAddressesInjective` | programs/no-loss-lottery/src/actions/init_state.rs:47-60 | Distinct (deposit, yield) mint pairs give distinct managers and distinct ticket mints, and conversely. |
| `Keys.PairAddressesDistinct` | programs/no-loss-lottery/src/actions/init_state.rs:33-60 | The derived manager and ticket mint never coincide with either vault or with each other; the two vaults coincide exactly when the mints do. |
| `Keys.StateAddressInjective` | programs/no-loss-lottery/src/actions/init_state.rs:8-17 | A client-state address determines the oracle account and the authority. |
| `NoLossLottery.RecordAdded` | programs/no-loss-lottery/src/lib.rs:325-330 | Adding a record under fresh non-zero numbers keeps records keyed by their numbers and adds exactly one. |
| `NoLossLottery.RecordRemoved` | programs/no-loss-lottery/src/lib.rs:132-136 | Closing an existing record keeps the keying and removes exactly one. |
| `NoLossLottery.TokenIssued` | programs/no-loss-lottery/src/lib.rs:332-336 | Minting to a user's associated account, created if needed, keeps every ticket-token account at its owner's associated address. |
| `NoLossLottery.TokenBurnt` | programs/no-loss-lottery/src/lib.rs:116-130 | Burning keeps every ticket-token account at its owner's associated address. |
| `NoLossLottery.StartClock` | programs/no-loss-lottery/src/lib.rs:42-50 | A zero cutoff becomes `now + draw_duration` (not before `now`), failing only on overflow. A non-zero cutoff leaves the manager unchanged. |
| `NoLossLottery.FullyBacked` | programs/no-loss-lottery/src/lib.rs:138-156 | With zero backing surplus, the vault holds exactly `ticket_price × ticket supply`. |
| `NoLossLottery.Lottery.Initialize` | programs/no-loss-lottery/src/lib.rs:13-32 | Stores `draw_duration` and `ticket_price` verbatim, a zero cutoff and the derived keys; leaves every other manager field at its default; creates an empty vault and prize account under the manager; no tickets; backing 0. |
| `NoLossLottery.Lottery.InitializeAgain` | programs/no-loss-lottery/src/lib.rs:259-269 | `initialize` on the mint of a running lottery fails with `AccountAlreadyInUse` at the vault's `init`, and nothing changes: no reset of cutoff, price or balances. |
| `NoLossLottery.Lottery.TransferDeposits` | programs/no-loss-lottery/src/lib.rs:138-156 | A deposit-token transfer: fails and changes nothing exactly when `Token.Transfer` fails; otherwise only the deposit balances change, as `Token.Transfer` says. |
| `NoLossLottery.Lottery.IssueTicket` | programs/no-loss-lottery/src/lib.rs:62-104 | Writes the record (this lottery's keys, owner = user, the numbers); mints one ticket token to the user's associated account, created if needed; supply + 1; keeps the invariant. |
| `NoLossLottery.Lottery.CloseTicket` | programs/no-loss-lottery/src/lib.rs:116-136 | Burns one of the user's ticket tokens and closes the record; supply − 1; keeps the invariant. |
| `NoLossLottery.Lottery.Buy` | programs/no-loss-lottery/src/lib.rs:34-105 | The full error order: missing deposit account (loaded first), numbers already bought (`init`), clock overflow, zero numbers, locked, short funds, foreign account. Nothing changes on error. On success: clock started if it was 0, otherwise untouched; the record; exactly the price from user to vault; one ticket token minted; backing kept unless the vault pays. |
| `NoLossLottery.Lottery.Purchase` | programs/no-loss-lottery/src/lib.rs:62-104 | The writes of `buy` after its guards: fails only on the transfer's checks and then changes nothing; otherwise the record, the transfer, the mint and the new manager, with backing kept. |
| `NoLossLottery.Lottery.Redeem` | programs/no-loss-lottery/src/lib.rs:350-392 | A missing record, ticket-token account or deposit account fails with `AccountNotInitialized`; then as `Refund`, with nothing changed on error. |
| `NoLossLottery.Lottery.Refund` | programs/no-loss-lottery/src/lib.rs:107-157 | Fails (`InsufficientFunds`) when the caller holds no ticket token or the vault holds less than the price. Otherwise: exactly one ticket token burnt, the record closed, exactly the price from vault to user, manager untouched, backing kept. |
| `NoLossLottery.Lottery.Draw` | programs/no-loss-lottery/src/lib.rs:159-193 | `NoTicketsPurchased`, then `CallDispense`, then `TimeRemaining`, in that order, with nothing changed. On success only the winning numbers (`[1..6]`) and `locked` change. |
| `NoLossLottery.Lottery.Dispense` | programs/no-loss-lottery/src/lib.rs:195-254 | Missing accounts, then `PassInWinningPDA`, then cutoff overflow, then a foreign-owned prize account; nothing changes on error. On success: cutoff `now + draw_duration`, unlocked, numbers zeroed. No tokens move without a record; with one, the whole prize balance goes to the named account. Tickets untouched; backing never falls unless the vault is the prize account. |
| `InitState.Validate` | programs/no-loss-lottery/src/actions/init_state.rs:81-99 | Accepts exactly a bounded max result, positive price, positive duration and a Switchboard oracle account; otherwise the first failing check's error, in that order. |
| `InitState.StoredMaxResult` | programs/no-loss-lottery/src/actions/init_state.rs:105-109 | A requested 0 stores `MAX_RESULT`, any other value is stored as is; a bounded request stays bounded. |
| `InitState.ValidatedMaxResultBounded` | programs/no-loss-lottery/src/actions/init_state.rs:83-109 | After a passing `validate` the stored max result is at most `MAX_RESULT`. |
| `InitState.InitialManager` | programs/no-loss-lottery/src/actions/init_state.rs:115-125 | Fails (overflow) exactly when `10 × ticket_price` exceeds `u64`. Otherwise copies the duration and price, zero cutoff, both mints, both derived vaults, the derived ticket mint and a reserve of `10 × ticket_price`, and writes no other field. |
| `InitState.Registry.InitState` | programs/no-loss-lottery/src/actions/init_state.rs:5-128 | The two mints are loaded first. Then the five `init` accounts in declaration order: an existing account fails `init`, and equal mints fail at the second vault. Then then `validate`, then overflow; nothing changes on error. On success exactly five new accounts: the client state (bounded max result, oracle, authority), both vaults and the ticket mint under the manager, and the manager record. Client and manager invariants are kept. |
| `RequestResult.RequestResult` | programs/no-loss-lottery/src/actions/request_result.rs:7-125 | Both the state account (a client state) and the vault manager must load, or `AccountNotInitialized`. Then the state must sit at `[STATE_SEED, vrf, authority]` (`ConstraintSeeds`) and name `vrf` (`ConstraintRaw`). Then `NoTicketsPurchased`, `AcquiringRandomness`, `TimeRemaining` and the oracle's refusal, in that order. A request, signed by the derived state, is issued exactly when all pass. |
| `RequestResult.RequestSignedByDerivedState` | programs/no-loss-lottery/src/actions/request_result.rs:107-121 | An issued request is signed by the state derived from exactly this oracle account and authority, and by no other pair. |
| `RequestResult.FreshLotteryCannotRequest` | programs/no-loss-lottery/src/actions/request_result.rs:73-76 | A manager just written by `init_state` makes the request fail with `NoTicketsPurchased`, whatever the clock. |
| `RequestResult.RequestNeedsIdleManagerPastCutoff` | programs/no-loss-lottery/src/actions/request_result.rs:73-88 | An issued request implies no outstanding request and a started epoch whose cutoff has passed. |

## Left out

- The TypeScript client, scripts, app and tests are not modelled. They are RPC
  plumbing and UI code.
- Staking and the swap-aware prize: the program side of staking is not part of this
  model, and the AMM's swap math is external. The stored reserve is modelled only as
  the value `init_state` writes.
- The Switchboard oracle is modelled as a boolean. Whether the oracle account parses
  is the `vrfIsSwitchboard` parameter of `Validate`. Whether the oracle accepts is
  the `oracleAccepts` parameter of `RequestResult`. The cross-program call is
  modelled as the returned `RandomnessRequest`.
- `update_result` is left out: both of its steps return `Ok` and do nothing.
- The instruction entry points of the oracle version are not part of this model.
  The model assumes each instruction runs its account checks, then `validate`, then
  `actuate`.
- Lamports are not modelled: the rent a payer funds, and the refund when an account
  is closed.
- Bump seeds, address hashing and the off-curve test are abstract. Addresses are
  their seeds, so derivation is injective by construction.
- Bump parameters are assumed to be the canonical bumps. A wrong bump (for example
  `vault_mgr_bump` or `client_state_bump`) would fail the seeds constraint, and the
  model does not represent that failure.
- The `prize` account of `redeem` and the `user` of `dispense` (the refund target
  only) are not modelled. Neither affects any state the model keeps.
- `Clock::get` is the parameter `now`. Converting the timestamp to `u64` is not
  modelled.
- Signer checks are not modelled: each caller is assumed to have signed as the
  account it names.
- Token accounts do not model freezing, delegates or the `u64` limit on balances.
  Balances are `nat`.
- The `escrow` and `payer_wallet` constraints of `request_result` only concern the
  oracle's payment, so they are left out.
- The client state holds only `max_result`, `vrf` and `authority`. Its other fields
  are not touched by the instructions shown.
- Calls to `buy`, `redeem`, `draw` or `dispense` before `initialize` are not
  modelled. A `Lottery` object exists only after its constructor.
- Ticket records of other lotteries, or accounts of other types, cannot be passed to
  `redeem`. The model's `ticket` parameter is a key of this lottery's record table.
- The first version keeps one map per account kind: records, deposit-token accounts
  and ticket-token accounts. The oracle version keeps a single map of typed
  accounts. In the first version, passing an account of one kind where another kind
  is expected therefore cannot be expressed.
- `Lottery.Valid` holds only under this lottery's own instructions. Two effects
  outside them are not modelled, and each would break "one ticket token per live
  record":
  - Holders can call the token program directly. They can burn a ticket token, or
    move one out of its associated account.
  - A `redeem` of another lottery can close one of this lottery's records. Its
    `ticket` account has neither seeds nor `has_one` (lib.rs:372-373).
- `Base.CheckedAdd` and `Base.CheckedMul` model a build with overflow checks. The
  manifest that would enable them is not part of this model. Without them,
  `now + draw_duration` (lib.rs:48-49, 215) would wrap to a cutoff before `now`, and
  `10 * ticket_price` would wrap to a small reserve. The two functions' contracts
  state both outcomes.
- The instructions do not state token conservation themselves. It follows from
  `Token.Transfer`, `Token.MintTo` and `Token.Burn`, whose contracts state the total.
