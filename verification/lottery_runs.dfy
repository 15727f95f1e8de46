/** Transactions over the lottery record: each instruction is atomic (a failure leaves the
    record as it was), and the invariants below hold of every record reachable from
    `initialize_config` by any sequence of transactions. */
module LotteryRuns {
  import opened Results
  import opened Uint
  import opened TicketNames
  import opened LotteryState
  import opened Lottery

  /** One transaction against the lottery, with the inputs its instruction reads. */
  datatype Instruction =
    | Buy(slot: u64, transfer: Cpi, registry: Cpi)
    | Commit(payer: Pubkey, slot: u64, key: Pubkey, oracle: OracleAccount)
    | Choose(payer: Pubkey, slot: u64, key: Pubkey, oracle: OracleAccount)
    | Claim(collectionMint: Pubkey, metadata: TicketMetadata, amount: u64)

  /** The instruction's outcome on the lottery record alone. */
  function Execute(s: TokenLottery, i: Instruction): Result<TokenLottery, Failure> {
    match i
    case Buy(slot, transfer, registry) =>
      (match BuyTicket(s, slot, transfer, registry)
       case Ok(p) => Ok(p.lottery)
       case Err(e) => Err(e))
    case Commit(payer, slot, key, oracle) => CommitRandomness(s, payer, slot, key, oracle)
    case Choose(payer, slot, key, oracle) => ChooseWinner(s, payer, slot, key, oracle)
    case Claim(collectionMint, metadata, amount) =>
      (match ClaimPrize(s, collectionMint, metadata, amount)
       case Ok(p) => Ok(p.lottery)
       case Err(e) => Err(e))
  }

  /** The record after the transaction: the runtime discards every change of a failed one. */
  function Step(s: TokenLottery, i: Instruction): TokenLottery {
    match Execute(s, i)
    case Ok(t) => t
    case Err(_) => s
  }

  /** The record after a sequence of transactions, in order. */
  function Run(s: TokenLottery, ins: seq<Instruction>): TokenLottery
    decreases |ins|
  {
    if |ins| == 0 then s else Run(Step(s, ins[0]), ins[1..])
  }

  /** How many of the transactions were ticket purchases that succeeded. */
  function Purchases(s: TokenLottery, ins: seq<Instruction>): nat
    decreases |ins|
  {
    if |ins| == 0 then 0
    else (if ins[0].Buy? && Execute(s, ins[0]).Ok? then 1 else 0) + Purchases(Step(s, ins[0]), ins[1..])
  }

  /** How many of the transactions were prize claims that succeeded. */
  function Claims(s: TokenLottery, ins: seq<Instruction>): nat
    decreases |ins|
  {
    if |ins| == 0 then 0
    else (if ins[0].Claim? && Execute(s, ins[0]).Ok? then 1 else 0) + Claims(Step(s, ins[0]), ins[1..])
  }

  /** How many of the transactions were randomness commitments that succeeded. */
  function Commits(s: TokenLottery, ins: seq<Instruction>): nat
    decreases |ins|
  {
    if |ins| == 0 then 0
    else (if ins[0].Commit? && Execute(s, ins[0]).Ok? then 1 else 0) + Commits(Step(s, ins[0]), ins[1..])
  }

  /** The configuration `initialize_config` fixes and no later instruction touches. */
  predicate SameConfig(s: TokenLottery, t: TokenLottery) {
    && t.bump == s.bump
    && t.authority == s.authority
    && t.startTime == s.startTime
    && t.endTime == s.endTime
    && t.ticketPrice == s.ticketPrice
  }

  /** The pot holds exactly the price of every ticket sold. */
  predicate Accounted(s: TokenLottery) {
    s.lotteryPotAmount == s.totalTickets * s.ticketPrice
  }

  /** The invariant of every reachable record: a chosen winner names an issued ticket
      (and, as written, one below 256); the pot never holds more than the tickets paid
      for, and exactly that until a winner is chosen. */
  predicate Valid(s: TokenLottery) {
    && (s.winnerChosen ==> s.winner < s.totalTickets && s.winner <= U8_MAX)
    && s.lotteryPotAmount <= s.totalTickets * s.ticketPrice
    && (!s.winnerChosen ==> Accounted(s))
  }

  /** A single transaction keeps the configuration, never lowers the ticket count, and
      never releases the winner latch or changes a chosen winner. */
  lemma StepMonotone(s: TokenLottery, i: Instruction)
    ensures SameConfig(s, Step(s, i))
    ensures Step(s, i).totalTickets >= s.totalTickets
    ensures s.winnerChosen ==> Step(s, i).winnerChosen && Step(s, i).winner == s.winner
  {
  }

  /** A ticket sale keeps the pot within, and before the draw equal to, count times price. */
  lemma BuyValid(s: TokenLottery, slot: u64, transfer: Cpi, registry: Cpi)
    requires Valid(s)
    ensures BuyTicket(s, slot, transfer, registry).Ok? ==> Valid(BuyTicket(s, slot, transfer, registry).value.lottery)
  {
    var r := BuyTicket(s, slot, transfer, registry);
    if r.Ok? {
      var t := r.value.lottery;
      assert t.totalTickets == s.totalTickets + 1 && t.ticketPrice == s.ticketPrice;
      assert t.lotteryPotAmount == s.lotteryPotAmount + s.ticketPrice;
      assert (s.totalTickets + 1) * s.ticketPrice == s.totalTickets * s.ticketPrice + s.ticketPrice;
    }
  }

  /** A draw sets a winner below the ticket count, and leaves pot and count alone. */
  lemma ChooseValid(s: TokenLottery, payer: Pubkey, slot: u64, key: Pubkey, oracle: OracleAccount)
    requires Valid(s)
    ensures ChooseWinner(s, payer, slot, key, oracle).Ok? ==> Valid(ChooseWinner(s, payer, slot, key, oracle).value)
  {
    var r := ChooseWinner(s, payer, slot, key, oracle);
    if r.Ok? {
      var t := r.value;
      assert !s.winnerChosen && Accounted(s);
      assert t.lotteryPotAmount == s.lotteryPotAmount && t.totalTickets == s.totalTickets && t.ticketPrice == s.ticketPrice;
    }
  }

  /** A claim empties the pot, which then lies below any count times price. */
  lemma ClaimValid(s: TokenLottery, collectionMint: Pubkey, metadata: TicketMetadata, amount: u64)
    requires Valid(s)
    ensures ClaimPrize(s, collectionMint, metadata, amount).Ok? ==> Valid(ClaimPrize(s, collectionMint, metadata, amount).value.lottery)
  {
    var r := ClaimPrize(s, collectionMint, metadata, amount);
    if r.Ok? {
      var t := r.value.lottery;
      assert t == s.(lotteryPotAmount := 0);
      assert s.winnerChosen;
      assert 0 <= s.totalTickets * s.ticketPrice;
    }
  }

  /** A single transaction preserves the invariant. */
  lemma StepValid(s: TokenLottery, i: Instruction)
    requires Valid(s)
    ensures Valid(Step(s, i))
  {
    match i
    case Buy(slot, transfer, registry) =>
      BuyValid(s, slot, transfer, registry);
    case Commit(payer, slot, key, oracle) =>
      var r := CommitRandomness(s, payer, slot, key, oracle);
      assert r.Ok? ==> r.value == s.(randomnessAccount := key);
    case Choose(payer, slot, key, oracle) =>
      ChooseValid(s, payer, slot, key, oracle);
    case Claim(collectionMint, metadata, amount) =>
      ClaimValid(s, collectionMint, metadata, amount);
  }

  /** Any sequence of transactions preserves the invariant. */
  lemma {:induction false} RunValid(s: TokenLottery, ins: seq<Instruction>)
    requires Valid(s)
    ensures Valid(Run(s, ins))
    decreases |ins|
  {
    if |ins| > 0 {
      StepValid(s, ins[0]);
      RunValid(Step(s, ins[0]), ins[1..]);
    }
  }

  /** Any sequence of transactions keeps the configuration, the ticket count only grows,
      and once chosen the winner stays chosen and fixed. */
  lemma {:induction false} RunMonotone(s: TokenLottery, ins: seq<Instruction>)
    ensures SameConfig(s, Run(s, ins))
    ensures Run(s, ins).totalTickets >= s.totalTickets
    ensures s.winnerChosen ==> Run(s, ins).winnerChosen && Run(s, ins).winner == s.winner
    decreases |ins|
  {
    if |ins| > 0 {
      StepMonotone(s, ins[0]);
      RunMonotone(Step(s, ins[0]), ins[1..]);
    }
  }

  /** One transaction adds one ticket exactly when it is a successful purchase, and,
      unless it is a successful claim, adds the price to the pot exactly then. */
  lemma StepAccounting(s: TokenLottery, i: Instruction)
    ensures Step(s, i).totalTickets == s.totalTickets + (if i.Buy? && Execute(s, i).Ok? then 1 else 0)
    ensures !(i.Claim? && Execute(s, i).Ok?) ==>
      Step(s, i).lotteryPotAmount == s.lotteryPotAmount + (if i.Buy? && Execute(s, i).Ok? then s.ticketPrice else 0)
  {
  }

  /** The ticket count grows by exactly the number of successful purchases, and while no
      claim succeeds the pot grows by exactly their price. */
  lemma {:induction false} RunCountsPurchases(s: TokenLottery, ins: seq<Instruction>)
    ensures Run(s, ins).totalTickets == s.totalTickets + Purchases(s, ins)
    ensures Claims(s, ins) == 0 ==>
      Run(s, ins).lotteryPotAmount == s.lotteryPotAmount + Purchases(s, ins) * s.ticketPrice
    decreases |ins|
  {
    if |ins| > 0 {
      var t := Step(s, ins[0]);
      var rest := ins[1..];
      RunCountsPurchases(t, rest);
      StepAccounting(s, ins[0]);
      StepMonotone(s, ins[0]);
      var b := if ins[0].Buy? && Execute(s, ins[0]).Ok? then 1 else 0;
      var n := Purchases(t, rest);
      assert Purchases(s, ins) == b + n;
      if Claims(s, ins) == 0 {
        assert Claims(t, rest) == 0;
        assert t.ticketPrice == s.ticketPrice;
        assert t.lotteryPotAmount == s.lotteryPotAmount + b * s.ticketPrice;
        assert Run(s, ins).lotteryPotAmount == t.lotteryPotAmount + n * s.ticketPrice;
        assert (b + n) * s.ticketPrice == b * s.ticketPrice + n * s.ticketPrice;
      }
    }
  }

  /** Every record reachable from `initialize_config` satisfies the invariant, keeps its
      configuration, and has sold exactly as many tickets as purchases succeeded. */
  lemma Reachable(payer: Pubkey, bump: u8, startTime: u64, endTime: u64, ticketPrice: u64, ins: seq<Instruction>)
    ensures var s := Run(InitializeConfig(payer, bump, startTime, endTime, ticketPrice), ins);
      && Valid(s)
      && s.authority == payer && s.startTime == startTime && s.endTime == endTime && s.ticketPrice == ticketPrice
      && s.totalTickets == Purchases(InitializeConfig(payer, bump, startTime, endTime, ticketPrice), ins)
  {
    var s0 := InitializeConfig(payer, bump, startTime, endTime, ticketPrice);
    RunValid(s0, ins);
    RunMonotone(s0, ins);
    RunCountsPurchases(s0, ins);
  }

  /** Until a claim succeeds, the pot equals the ticket count times the price; failed
      claim attempts change nothing. */
  lemma PotMatchesTicketsUntilClaim(payer: Pubkey, bump: u8, startTime: u64, endTime: u64, ticketPrice: u64, ins: seq<Instruction>)
    requires Claims(InitializeConfig(payer, bump, startTime, endTime, ticketPrice), ins) == 0
    ensures Accounted(Run(InitializeConfig(payer, bump, startTime, endTime, ticketPrice), ins))
  {
    var s0 := InitializeConfig(payer, bump, startTime, endTime, ticketPrice);
    var s := Run(s0, ins);
    var n := Purchases(s0, ins);
    RunCountsPurchases(s0, ins);
    RunMonotone(s0, ins);
    assert s.totalTickets == n && s.ticketPrice == ticketPrice;
    assert s.lotteryPotAmount == n * ticketPrice;
  }

  /** Without a successful commitment the record keeps the default randomness address,
      from which no draw can read, so no winner is chosen. */
  lemma {:induction false} NoCommitNoDraw(s: TokenLottery, ins: seq<Instruction>)
    requires s.randomnessAccount == DEFAULT_PUBKEY && !s.winnerChosen
    requires Commits(s, ins) == 0
    ensures Run(s, ins).randomnessAccount == DEFAULT_PUBKEY && !Run(s, ins).winnerChosen
    decreases |ins|
  {
    if |ins| > 0 {
      var t := Step(s, ins[0]);
      assert !(ins[0].Commit? && Execute(s, ins[0]).Ok?);
      assert t.randomnessAccount == DEFAULT_PUBKEY && !t.winnerChosen;
      NoCommitNoDraw(t, ins[1..]);
    }
  }

  /** Commit comes before reveal: from `initialize_config`, a `choose_winner` succeeds
      only after some earlier `commit_randomness` has succeeded. */
  lemma DrawFollowsCommit(payer: Pubkey, bump: u8, startTime: u64, endTime: u64, ticketPrice: u64,
                          ins: seq<Instruction>, k: nat)
    requires k < |ins| && ins[k].Choose?
    requires Execute(Run(InitializeConfig(payer, bump, startTime, endTime, ticketPrice), ins[..k]), ins[k]).Ok?
    ensures Commits(InitializeConfig(payer, bump, startTime, endTime, ticketPrice), ins[..k]) > 0
  {
    var s0 := InitializeConfig(payer, bump, startTime, endTime, ticketPrice);
    if Commits(s0, ins[..k]) == 0 {
      NoCommitNoDraw(s0, ins[..k]);
      assert false;
    }
  }

  /** Once `choose_winner` has succeeded, repeating it fails with `WinnerChosen` whenever
      the earlier guards pass, and no transaction whatever changes the winner. */
  lemma ChooseWinnerLatches(s: TokenLottery, payer: Pubkey, slot: u64, key: Pubkey, oracle: OracleAccount,
                            slot2: u64, oracle2: OracleAccount, ins: seq<Instruction>)
    requires ChooseWinner(s, payer, slot, key, oracle).Ok?
    requires slot2 >= s.endTime
    ensures var t := ChooseWinner(s, payer, slot, key, oracle).value;
      && ChooseWinner(t, payer, slot2, key, oracle2) == Err(Program(WinnerChosen))
      && Run(t, ins).winnerChosen && Run(t, ins).winner == t.winner
  {
    RunMonotone(ChooseWinner(s, payer, slot, key, oracle).value, ins);
  }

  /** The commitment is not latched: a later `commit_randomness` naming any other account
      that parses replaces it, even after the winner has been chosen; only the default
      address, which never parses, is refused. */
  lemma CommitOverwrites(s: TokenLottery, payer: Pubkey, slot: u64, key1: Pubkey, key2: Pubkey, oracle: OracleAccount)
    requires CommitRandomness(s, payer, slot, key1, oracle).Ok?
    ensures CommitRandomness(CommitRandomness(s, payer, slot, key1, oracle).value, payer, slot, key2, oracle)
      == if key2 == DEFAULT_PUBKEY then Err(UnwrapFailed) else Ok(s.(randomnessAccount := key2))
  {
  }

  /** Commit binds the draw: after committing `key`, the authority's `choose_winner` with
      any other oracle account fails with `IncorrectRandomnessAccount`. */
  lemma CommitBindsChoice(s: TokenLottery, payer: Pubkey, slot: u64, key: Pubkey, oracle: OracleAccount,
                          slot2: u64, other: Pubkey, oracle2: OracleAccount)
    requires CommitRandomness(s, payer, slot, key, oracle).Ok?
    requires other != key
    ensures ChooseWinner(CommitRandomness(s, payer, slot, key, oracle).value, payer, slot2, other, oracle2)
      == Err(Program(IncorrectRandomnessAccount))
  {
  }

  /** A successful claim pays out the whole pot; the same claim repeated succeeds again
      and pays nothing. */
  lemma ClaimTwicePaysZero(s: TokenLottery, collectionMint: Pubkey, metadata: TicketMetadata, amount: u64)
    requires s.winnerChosen && metadata.collection == Some(Collection(true, collectionMint))
    requires NameMatches(metadata.name, s.winner) && amount > 0
    ensures var first := ClaimPrize(s, collectionMint, metadata, amount).value;
      && first.credited == s.lotteryPotAmount
      && ClaimPrize(first.lottery, collectionMint, metadata, amount) == Ok(Payout(first.lottery, 0))
  {
  }

  /** The holder of ticket `n`, whose registered name may be NUL-padded, can claim exactly
      when `n` is the winner; any other verified ticket of the collection is refused with
      `IncorrectTicket`. */
  lemma OnlyWinningTicketClaims(s: TokenLottery, collectionMint: Pubkey, n: nat, pad: nat, amount: u64)
    requires s.winnerChosen
    ensures var metadata := TicketMetadata(TicketName(n) + Padding(pad), Some(Collection(true, collectionMint)));
      && (ClaimPrize(s, collectionMint, metadata, amount).Ok? <==> n == s.winner && amount > 0)
      && (n != s.winner ==> ClaimPrize(s, collectionMint, metadata, amount) == Err(Program(IncorrectTicket)))
  {
    PaddedNameMatches(n, pad, s.winner);
  }

  /** The sale window and the completion check are both inclusive of `endTime`: at that
      slot a ticket can still be bought after the winner has been chosen. */
  lemma BuyAfterWinnerAtEndTime(s: TokenLottery)
    requires s.winnerChosen && s.startTime <= s.endTime
    requires s.lotteryPotAmount + s.ticketPrice <= U64_MAX && s.totalTickets + 1 <= U64_MAX
    ensures BuyTicket(s, s.endTime, Succeeds, Succeeds).Ok?
    ensures ChooseWinner(s, s.authority, s.endTime, s.randomnessAccount, Unparseable) == Err(Program(WinnerChosen))
  {
  }

  /** `initialize_config` accepts an inverted window, after which every purchase fails. */
  lemma InvertedWindowSellsNothing(payer: Pubkey, bump: u8, startTime: u64, endTime: u64, ticketPrice: u64,
                                   slot: u64, transfer: Cpi, registry: Cpi)
    requires startTime > endTime
    ensures BuyTicket(InitializeConfig(payer, bump, startTime, endTime, ticketPrice), slot, transfer, registry)
      == Err(Program(LotteryNotOpen))
  {
  }
}
