/** The lottery's state-changing instructions. Each is a pure function from the current
    record and the instruction's inputs to the new record, or to the failure that aborts
    the transaction. Calls into other programs are inputs saying whether they succeed. */
module Lottery {
  import opened Results
  import opened Uint
  import opened TicketNames
  import opened LotteryState

  /** The outcome of a call into another program (system transfer, token mint, metadata
      registration): its code is outside the model, only success or failure matters. */
  datatype Cpi = Succeeds | Fails

  /** The 32-byte value a randomness account reveals. */
  type Bytes32 = v: seq<u8> | |v| == 32 witness Zeros(32)

  /** What the randomness oracle's account yields at the instruction's slot: either data
      that does not parse, or the slot its randomness is bound to and the revealed
      value, `None` while it is still pending for the current clock. */
  datatype OracleAccount =
    | Unparseable
    | Randomness(seedSlot: u64, revealed: Option<Bytes32>)

  /** Whether the data at `key` parses as a randomness account. The default address is
      the System Program's, whose data is never a randomness account, so a lottery that
      still holds `DEFAULT_PUBKEY` cannot read randomness from it. */
  predicate Parses(key: Pubkey, oracle: OracleAccount) {
    key != DEFAULT_PUBKEY && oracle.Randomness?
  }

  /** A successful purchase: the new record and the ticket that was registered. */
  datatype Purchase = Purchase(lottery: TokenLottery, ticketNumber: u64, ticketName: string)

  /** `buy_ticket` at slot `slot`. `transfer` is the payment into the lottery account,
      `registry` the mint, metadata, master-edition and collection-verification calls. */
  function BuyTicket(s: TokenLottery, slot: u64, transfer: Cpi, registry: Cpi): (r: Result<Purchase, Failure>)
    ensures r == Err(Program(LotteryNotOpen)) <==> slot < s.startTime || slot > s.endTime
    ensures r.Ok? <==>
      && s.startTime <= slot <= s.endTime
      && transfer.Succeeds? && registry.Succeeds?
      && s.lotteryPotAmount + s.ticketPrice <= U64_MAX
      && s.totalTickets + 1 <= U64_MAX
    ensures r.Ok? ==>
      && r.value.lottery == s.(lotteryPotAmount := s.lotteryPotAmount + s.ticketPrice,
                               totalTickets := s.totalTickets + 1)
      && r.value.ticketNumber == s.totalTickets
      && r.value.ticketName == TicketName(s.totalTickets)
  {
    var ticketName := TicketName(s.totalTickets);
    if slot < s.startTime || slot > s.endTime then Err(Program(LotteryNotOpen))
    else if transfer.Fails? then Err(CpiFailed)
    else match CheckedAdd(s.lotteryPotAmount, s.ticketPrice, U64_MAX)
      case None => Err(ArithmeticOverflow)
      case Some(pot) =>
        if registry.Fails? then Err(CpiFailed)
        else match CheckedAdd(s.totalTickets, 1, U64_MAX)
          case None => Err(ArithmeticOverflow)
          case Some(total) =>
            Ok(Purchase(s.(lotteryPotAmount := pot, totalTickets := total), s.totalTickets, ticketName))
  }

  /** `commit_randomness` by `payer` at slot `slot`, naming the oracle account `key`. */
  function CommitRandomness(s: TokenLottery, payer: Pubkey, slot: u64, key: Pubkey, oracle: OracleAccount)
    : (r: Result<TokenLottery, Failure>)
    ensures r == Err(Program(NotAuthorized)) <==> payer != s.authority
    ensures r == Err(UnwrapFailed) <==> payer == s.authority && !Parses(key, oracle)
    ensures r == Err(ArithmeticOverflow) <==> payer == s.authority && Parses(key, oracle) && slot == 0
    ensures r == Err(Program(RandomnessAlreadyRevealed)) <==>
      && payer == s.authority
      && Parses(key, oracle) && slot >= 1 && oracle.seedSlot != slot - 1
    ensures r.Ok? <==> payer == s.authority && Parses(key, oracle) && slot >= 1 && oracle.seedSlot + 1 == slot
    ensures r.Ok? ==> r.value == s.(randomnessAccount := key) && key != DEFAULT_PUBKEY
  {
    if payer != s.authority then Err(Program(NotAuthorized))
    else if !Parses(key, oracle) then Err(UnwrapFailed)
    else match oracle
      case Randomness(seedSlot, _) =>
        match CheckedSub(slot, 1)
        case None => Err(ArithmeticOverflow)
        case Some(previous) =>
          if seedSlot != previous then Err(Program(RandomnessAlreadyRevealed))
          else Ok(s.(randomnessAccount := key))
  }

  /** `choose_winner` by `payer` at slot `slot`, presenting the oracle account `key`.
      The winner is the revealed value's FIRST BYTE reduced modulo the ticket count. */
  function ChooseWinner(s: TokenLottery, payer: Pubkey, slot: u64, key: Pubkey, oracle: OracleAccount)
    : (r: Result<TokenLottery, Failure>)
    ensures r == Err(Program(NotAuthorized)) <==> payer != s.authority
    ensures r == Err(Program(IncorrectRandomnessAccount)) <==>
      payer == s.authority && key != s.randomnessAccount
    ensures r == Err(Program(LotteryNotCompleted)) <==>
      payer == s.authority && key == s.randomnessAccount && slot < s.endTime
    ensures r == Err(Program(WinnerChosen)) <==>
      payer == s.authority && key == s.randomnessAccount && slot >= s.endTime && s.winnerChosen
    ensures r == Err(Program(RandomnessNotResolved)) <==>
      && payer == s.authority && key == s.randomnessAccount && slot >= s.endTime && !s.winnerChosen
      && Parses(key, oracle) && oracle.revealed.None?
    ensures r == Err(UnwrapFailed) <==>
      && payer == s.authority && key == s.randomnessAccount && slot >= s.endTime && !s.winnerChosen
      && !Parses(key, oracle)
    ensures r == Err(DivisionByZero) <==>
      && payer == s.authority && key == s.randomnessAccount && slot >= s.endTime && !s.winnerChosen
      && Parses(key, oracle) && oracle.revealed.Some? && s.totalTickets == 0
    ensures r.Ok? <==>
      && payer == s.authority && key == s.randomnessAccount && slot >= s.endTime && !s.winnerChosen
      && Parses(key, oracle) && oracle.revealed.Some? && s.totalTickets > 0
    ensures r.Ok? ==>
      && r.value == s.(winner := WinnerIndex(oracle.revealed.value[0], s.totalTickets), winnerChosen := true)
      && r.value.winner < s.totalTickets
      && r.value.winner <= U8_MAX
  {
    if payer != s.authority then Err(Program(NotAuthorized))
    else if key != s.randomnessAccount then Err(Program(IncorrectRandomnessAccount))
    else if slot < s.endTime then Err(Program(LotteryNotCompleted))
    else if s.winnerChosen then Err(Program(WinnerChosen))
    else if !Parses(key, oracle) then Err(UnwrapFailed)
    else match oracle
      case Randomness(_, revealed) =>
        match revealed
        case None => Err(Program(RandomnessNotResolved))
        case Some(value) =>
          if s.totalTickets == 0 then Err(DivisionByZero)
          else Ok(s.(winner := WinnerIndex(value[0], s.totalTickets), winnerChosen := true))
  }

  /** `reveal_random_value[0] as u64 % total_tickets`: the winning ticket number drawn
      from one random byte. It names an issued ticket, never exceeds the byte, and
      differs from it by a multiple of the ticket count. */
  function WinnerIndex(randomByte: u8, totalTickets: u64): (w: u64)
    requires totalTickets > 0
    ensures w < totalTickets
    ensures w <= randomByte
    ensures randomByte == (randomByte / totalTickets) * totalTickets + w
    ensures randomByte < totalTickets ==> w == randomByte
  {
    randomByte % totalTickets
  }

  /** The collection entry of a ticket's metadata. */
  datatype Collection = Collection(verified: bool, key: Pubkey)

  /** The metadata account of the ticket mint derived from the winning number. */
  datatype TicketMetadata = TicketMetadata(name: string, collection: Option<Collection>)

  /** A successful claim: the new record and the amount credited to the claimant. */
  datatype Payout = Payout(lottery: TokenLottery, credited: u64)

  /** `claim_prize`: `metadata` belongs to the ticket mint derived from `s.winner`,
      `collectionMint` is the lottery's collection, `amount` the claimant's balance of
      that ticket. */
  function ClaimPrize(s: TokenLottery, collectionMint: Pubkey, metadata: TicketMetadata, amount: u64)
    : (r: Result<Payout, Failure>)
    ensures r == Err(Program(WinnerNotChosen)) <==> !s.winnerChosen
    ensures r == Err(UnwrapFailed) <==> s.winnerChosen && metadata.collection.None?
    ensures r == Err(Program(NotVerified)) <==>
      s.winnerChosen && metadata.collection.Some? && !metadata.collection.value.verified
    ensures r == Err(Program(IncorrectTicket)) <==>
      && s.winnerChosen && metadata.collection.Some? && metadata.collection.value.verified
      && (metadata.collection.value.key != collectionMint || !NameMatches(metadata.name, s.winner))
    ensures r == Err(Program(NoTicket)) <==>
      && s.winnerChosen && metadata.collection == Some(Collection(true, collectionMint))
      && NameMatches(metadata.name, s.winner) && amount == 0
    ensures r.Ok? <==>
      && s.winnerChosen && metadata.collection == Some(Collection(true, collectionMint))
      && NameMatches(metadata.name, s.winner) && amount > 0
    ensures r.Ok? ==> r.value.credited == s.lotteryPotAmount && r.value.lottery == s.(lotteryPotAmount := 0)
  {
    if !s.winnerChosen then Err(Program(WinnerNotChosen))
    else match metadata.collection
      case None => Err(UnwrapFailed)
      case Some(collection) =>
        if !collection.verified then Err(Program(NotVerified))
        else if collection.key != collectionMint then Err(Program(IncorrectTicket))
        else
          var ticketName := TicketName(s.winner);
          var metadataName := StripNul(metadata.name);
          if metadataName != ticketName then Err(Program(IncorrectTicket))
          else if amount == 0 then Err(Program(NoTicket))
          else Ok(Payout(s.(lotteryPotAmount := 0), s.lotteryPotAmount))
  }
}
