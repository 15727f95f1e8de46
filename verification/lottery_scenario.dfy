/** A complete lottery run with concrete values: three purchases, a commit, a draw, and
    the winner's claim made twice. */
module LotteryScenario {
  import opened Results
  import opened Uint
  import opened TicketNames
  import opened LotteryState
  import opened Lottery

  const ADMIN: Pubkey := [1]
  const ORACLE: Pubkey := [2]
  const COLLECTION: Pubkey := [3]

  /** A revealed 32-byte value whose first byte is `b`. */
  function RevealedWith(b: u8): (v: Bytes32)
    ensures v[0] == b
  {
    [b] + Zeros(31)
  }

  /** The metadata of ticket `n` as the registry stores it, verified in the collection. */
  function Registered(n: nat): (m: TicketMetadata)
    ensures NameMatches(m.name, n)
  {
    StripPaddedName(n, 10);
    TicketMetadata(TicketName(n) + Padding(10), Some(Collection(true, COLLECTION)))
  }

  /** Seven tickets and a random byte of 23 draw ticket 2. */
  lemma DrawSevenTickets()
    ensures WinnerIndex(23, 7) == 2
  {
  }

  /** Window 100..200 at price 50; purchases at slots 110, 150 and 190; commit at 201 to
      an oracle account seeded at 200; draw at 201 with first byte 5; ticket 2 wins and
      claims 150, then 0; ticket 1 is refused. */
  lemma EndToEnd()
    ensures
      var s0 := InitializeConfig(ADMIN, 254, 100, 200, 50);
      var p1 := BuyTicket(s0, 110, Succeeds, Succeeds);
      p1.Ok? && p1.value.ticketNumber == 0 &&
      var p2 := BuyTicket(p1.value.lottery, 150, Succeeds, Succeeds);
      p2.Ok? && p2.value.ticketNumber == 1 &&
      var p3 := BuyTicket(p2.value.lottery, 190, Succeeds, Succeeds);
      p3.Ok? && p3.value.ticketNumber == 2 && p3.value.ticketName == TicketName(2) &&
      var s3 := p3.value.lottery;
      s3.totalTickets == 3 && s3.lotteryPotAmount == 150 &&
      BuyTicket(s3, 201, Succeeds, Succeeds) == Err(Program(LotteryNotOpen)) &&
      var oracle := Randomness(200, Some(RevealedWith(5)));
      var c := CommitRandomness(s3, ADMIN, 201, ORACLE, oracle);
      c.Ok? &&
      var w := ChooseWinner(c.value, ADMIN, 201, ORACLE, oracle);
      w.Ok? && w.value.winner == 2 &&
      ClaimPrize(w.value, COLLECTION, Registered(1), 1) == Err(Program(IncorrectTicket)) &&
      var first := ClaimPrize(w.value, COLLECTION, Registered(2), 1);
      first.Ok? && first.value.credited == 150 &&
      var second := ClaimPrize(first.value.lottery, COLLECTION, Registered(2), 1);
      second.Ok? && second.value.credited == 0
  {
    var s0 := InitializeConfig(ADMIN, 254, 100, 200, 50);
    var s1 := BuyTicket(s0, 110, Succeeds, Succeeds).value.lottery;
    var s2 := BuyTicket(s1, 150, Succeeds, Succeeds).value.lottery;
    var s3 := BuyTicket(s2, 190, Succeeds, Succeeds).value.lottery;
    assert s3.totalTickets == 3 && s3.lotteryPotAmount == 150;
    var oracle := Randomness(200, Some(RevealedWith(5)));
    var c := CommitRandomness(s3, ADMIN, 201, ORACLE, oracle).value;
    var w := ChooseWinner(c, ADMIN, 201, ORACLE, oracle).value;
    assert w.winner == 2;
    TicketNameInjective(1, 2);
    assert !NameMatches(Registered(1).name, 2);
  }
}
