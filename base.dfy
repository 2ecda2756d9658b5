/** Machine integers, winning-number tuples and the error codes shared by every instruction. */
module Base {

  /** One past the largest `u64`. */
  const U64_LIMIT: nat := 0x1_0000_0000_0000_0000

  /** Rust's `u64`. */
  type u64 = x: nat | x < U64_LIMIT

  /** A `[u8; 6]` ticket combination. */
  type Numbers = s: seq<bv8> | |s| == 6 witness [0, 0, 0, 0, 0, 0]

  /** `[0u8; 6]`: the default value of an account's numbers, rejected by `buy`. */
  const Zeros: Numbers := [0, 0, 0, 0, 0, 0]

  /** The combination `draw` stores: the program hard-codes it instead of drawing at random. */
  const DrawnNumbers: Numbers := [1, 2, 3, 4, 5, 6]

  /** Every way an instruction can fail. A failed instruction leaves every account as it was. */
  datatype Error =
    // the `ErrorCode` enum of the original program
    | TimeRemaining
    | CallDispense
    | InvalidNumbers
    | NoTicketsPurchased
    | PassInWinningPDA
    // the `NLLErrorCode` enum used by the randomness-oracle instructions
    | MaxResultExceedsMaximum
    | InvalidTicketPrice
    | InvalidDrawDuration
    | InvalidSwitchboardVrfAccount
    | AcquiringRandomness
    // the framework's account checks
    | AccountAlreadyInUse     // `init` on an address that already holds an account
    | AccountNotInitialized   // a required account does not exist or holds data of another type
    | ConstraintSeeds         // an account is not at the address its seeds derive
    | ConstraintRaw           // a `constraint = ...` expression is false
    // the token program
    | InsufficientFunds
    | OwnerMismatch
    // the runtime: a `u64` overflow panics and aborts the instruction
    | ArithmeticOverflow
    // the randomness oracle refused the request
    | VrfRequestFailed

  datatype Result<T> = Ok(value: T) | Err(error: Error)

  /** What a build without overflow checks computes for a `u64` result: the value modulo 2^64. */
  function Wrapped(x: nat): u64
  {
    x % U64_LIMIT
  }

  /**
   * `a + b` on `u64` as compiled with overflow checks: the instruction aborts on exactly
   * the sums a wrapping build would get wrong, and such a wrapped sum would fall below `a`
   * (a cutoff before `now`, say).
   */
  function CheckedAdd(a: u64, b: u64): (r: Result<u64>)
    ensures r.Ok? <==> Wrapped(a + b) == a + b
    ensures r.Ok? ==> r.value == Wrapped(a + b) && r.value >= a
    ensures r.Err? ==> r.error == ArithmeticOverflow && Wrapped(a + b) < a
  {
    if a + b < U64_LIMIT then Ok(a + b)
    else
      assert Wrapped(a + b) == a + b - U64_LIMIT;
      Err(ArithmeticOverflow)
  }

  /**
   * `a * b` on `u64` as compiled with overflow checks: the instruction aborts on exactly
   * the products a wrapping build would get wrong, which it would make smaller than the
   * true product.
   */
  function CheckedMul(a: u64, b: u64): (r: Result<u64>)
    ensures r.Ok? <==> Wrapped(a * b) == a * b
    ensures r.Ok? ==> r.value == Wrapped(a * b)
    ensures r.Err? ==> r.error == ArithmeticOverflow && Wrapped(a * b) < a * b
  {
    var p := a * b;
    if p < U64_LIMIT then Ok(p) else Err(ArithmeticOverflow)
  }
}
