/** The lottery's single persistent record, its error codes, and the instruction that
    creates it. */
module LotteryState {
  import opened Uint

  /** An account address (32 bytes on chain; only equality matters here). */
  type Pubkey = seq<u8>

  /** `Pubkey::default()`: the all-zero address, meaning "no randomness account yet". */
  const DEFAULT_PUBKEY: Pubkey := Zeros(32)

  function Zeros(n: nat): (z: seq<u8>)
    ensures |z| == n
    ensures forall i :: 0 <= i < n ==> z[i] == 0
  {
    if n == 0 then [] else [0] + Zeros(n - 1)
  }

  /** The lottery record (`TokenLottery`). Slots and amounts are `u64`. */
  datatype TokenLottery = TokenLottery(
    bump: u8,
    winner: u64,
    winnerChosen: bool,
    startTime: u64,
    endTime: u64,
    lotteryPotAmount: u64,
    totalTickets: u64,
    ticketPrice: u64,
    authority: Pubkey,
    randomnessAccount: Pubkey
  )

  /** The program's own error codes (`ErrorCode`). */
  datatype ErrorCode =
    | LotteryNotOpen
    | IncorrectRandomnessAccount
    | NotAuthorized
    | RandomnessAlreadyRevealed
    | LotteryNotCompleted
    | WinnerChosen
    | RandomnessNotResolved
    | WinnerNotChosen
    | NotVerified
    | IncorrectTicket
    | NoTicket

  /** Why a transaction aborts. Whatever the reason, the runtime discards every change
      the instruction made. */
  datatype Failure =
    | Program(code: ErrorCode)     // an `ErrorCode` returned by the program
    | CpiFailed                    // a call into the system, token or metadata program failed
    | ArithmeticOverflow           // a checked `u64` addition or subtraction left its range
    | DivisionByZero               // `%` by zero
    | UnwrapFailed                 // `unwrap()` on a `None` or an `Err`

  /** `initialize_config`: a fresh record owned by the caller, with an empty pot, no
      tickets, no randomness account and no winner. The window is stored as given; in
      particular `startTime <= endTime` is not required. */
  function InitializeConfig(payer: Pubkey, bump: u8, startTime: u64, endTime: u64, ticketPrice: u64): (s: TokenLottery)
    ensures s.authority == payer && s.bump == bump
    ensures s.startTime == startTime && s.endTime == endTime && s.ticketPrice == ticketPrice
    ensures s.lotteryPotAmount == 0 && s.totalTickets == 0
    ensures s.randomnessAccount == DEFAULT_PUBKEY
    ensures !s.winnerChosen
  {
    TokenLottery(
      bump := bump,
      winner := 0,
      winnerChosen := false,
      startTime := startTime,
      endTime := endTime,
      lotteryPotAmount := 0,
      totalTickets := 0,
      ticketPrice := ticketPrice,
      authority := payer,
      randomnessAccount := DEFAULT_PUBKEY
    )
  }
}
