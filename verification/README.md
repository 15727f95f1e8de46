# Token lottery on Solana — a Dafny model

This project models the two Anchor programs of the token-lottery repository.

The first is **`token_lottery`**, a raffle. It has one `TokenLottery` record holding:

- the authority;
- the sale window `start_time..end_time`, measured in slots;
- the ticket price;
- the pot and the ticket count;
- the committed randomness account;
- the winner latch and the winner.

Five instructions change the record: `initialize_config`, `buy_ticket`, `commit_randomness`, `choose_winner` and `claim_prize`. Each one becomes a pure function. It takes the record and the instruction's scalar inputs: the caller's key, the current slot, the oracle account's parsed data, the ticket metadata and the holder's token amount. It returns the new record or the `Failure` that aborts the transaction.

The guards are checked in the source's order, and every error case is a value. These errors are:

- the program's own `ErrorCode`;
- a failed call into another program;
- a checked `u64` overflow;
- division by zero;
- a failed `unwrap`.

`LotteryRuns` makes each instruction atomic: a failed transaction keeps the old record. It then proves invariants over any sequence of transactions. Ticket identity by name is modelled in `TicketNames`: ticket `n` is named `"Token Lottery Ticket #" ++ decimal(n)`. The decimal rendering of `u64::to_string` lives in `Decimal`, together with its inverse parser.

The second is **`tokenlottery`**, the scaffold counter. It is a `u8` count with `initialize`, a checked `increment`, a checked `decrement`, `set` and `close`. The account slot is an `Option`, so `close` and its aftermath can be stated.

Files: `results.dfy`, `uint.dfy`, `decimal.dfy`, `ticket_names.dfy`, `lottery_state.dfy`, `lottery.dfy`, `lottery_runs.dfy`, `lottery_scenario.dfy`, `counter.dfy`.

In some places the code departs from what the lottery is meant to do: a draw over the whole random value, a commitment set once, a validated window. In each of those places the model follows the code:

- **Winner draw.** The winner is the revealed value's *first byte* modulo the ticket count, not the whole value. So `winner <= 255` always holds, and no ticket numbered 256 or higher can win. `Valid` records this, and `ChooseWinner` and `WinnerIndex` state it.
- **Commitment latch.** `commit_randomness` has no latch. The authority may replace the commitment at any time, even after the draw. `CommitOverwrites` shows this.
- **Window check.** `initialize_config` does not check `start_time < end_time`, and it does not check for a positive price. `InvertedWindowSellsNothing` shows the effect.
- **Inclusive end slot.** Both the sale window and the completion check include `end_time`. At that slot a ticket can still be bought after the winner has been drawn, and it adds to the pot. `BuyAfterWinnerAtEndTime` shows this.
- **Repeated claims.** A claim is not latched. Repeating it succeeds and pays 0, as `ClaimTwicePaysZero` shows.
- **The default address.** A fresh record names `Pubkey::default()` as its randomness account. That is the System Program's address, and its data never parses as a randomness account. So a draw before any commit aborts at the parse `unwrap`, and a commit naming that address aborts the same way. `DrawFollowsCommit` proves that every successful draw comes after a successful commit.
- **Arithmetic overflow.** `+=` on `u64` and `clock.slot - 1` are modelled as checked operations. They abort on overflow or underflow rather than wrap, as with overflow checks enabled.

## Model

| member | source | states |
|---|---|---|
| LotteryState.InitializeConfig | anchor/programs/token_lottery/src/lib.rs:53-72 | the new record is owned by the caller, keeps the given window, price and bump, and has pot 0, no tickets, the default randomness key and no winner; the window is not validated |
| Lottery.BuyTicket | anchor/programs/token_lottery/src/lib.rs:172-293 | fails with `LotteryNotOpen` exactly when the slot lies outside the inclusive window `start_time..end_time`; succeeds exactly when the window, both external calls and both checked additions pass; on success only the pot (plus the price) and the ticket count (plus one) change, and the ticket registered is number `total_tickets` named `NAME ++ decimal(total_tickets)` |
| Lottery.CommitRandomness | anchor/programs/token_lottery/src/lib.rs:295-313 | `NotAuthorized` exactly when the caller is not the authority; then an abort when the oracle data does not parse (always so at the default address) or at slot 0; otherwise `RandomnessAlreadyRevealed` exactly when the oracle's seed slot is not the previous slot; on success only the randomness account changes, with no latch |
| Lottery.ChooseWinner | anchor/programs/token_lottery/src/lib.rs:315-351 | errors in the order `NotAuthorized`, `IncorrectRandomnessAccount`, `LotteryNotCompleted` (slot before `end_time`), `WinnerChosen`, an abort when the oracle data does not parse (always so at the default address), then `RandomnessNotResolved`, and an abort when no tickets were sold; on success only `winner` and the latch change, with `winner < total_tickets` and `winner <= 255` |
| Lottery.WinnerIndex | anchor/programs/token_lottery/src/lib.rs:342 | the drawn number is below the ticket count, is at most the random byte, differs from the byte by a whole multiple of the ticket count, and is the byte itself when the byte is below the count |
| Lottery.ClaimPrize | anchor/programs/token_lottery/src/lib.rs:353-374 | `WinnerNotChosen` exactly before the draw; then an abort when the metadata has no collection, then `NotVerified`, then `IncorrectTicket` for a wrong collection key or a wrong NUL-stripped name, then `NoTicket` for a zero balance; succeeds exactly when all pass, crediting the claimant the whole old pot and zeroing it, changing nothing else |
| TicketNames.TicketName | anchor/programs/token_lottery/src/lib.rs:174 | a ticket name is the fixed prefix followed by more characters and contains no NUL |
| TicketNames.StripNul | anchor/programs/token_lottery/src/lib.rs:360 | the result has no NUL and holds exactly the input's non-NUL characters |
| TicketNames.StripNulFree | anchor/programs/token_lottery/src/lib.rs:360 | a string without NUL is left unchanged |
| TicketNames.StripNulAppend | anchor/programs/token_lottery/src/lib.rs:360 | removing NUL characters distributes over concatenation |
| TicketNames.StripNulIdempotent | anchor/programs/token_lottery/src/lib.rs:360 | removing NUL characters twice is the same as removing them once |
| TicketNames.StripPaddedName | anchor/programs/token_lottery/src/lib.rs:359-360 | a ticket name padded with NULs strips back to the ticket name |
| TicketNames.TicketNameInjective | anchor/programs/token_lottery/src/lib.rs:174 | two ticket names are equal if and only if their numbers are equal |
| TicketNames.PaddedNameMatches | anchor/programs/token_lottery/src/lib.rs:359-365 | the registered, possibly padded, name of ticket `n` passes the claim's name comparison for winner `w` if and only if `n == w` |
| Decimal.Digits | anchor/programs/token_lottery/src/lib.rs:174 | the rendering of a number is a non-empty digit string with no leading zero, starting with '0' only for 0 |
| Decimal.ParseDigits | anchor/programs/token_lottery/src/lib.rs:174 | parsing the decimal rendering of `n` gives back `n` |
| Decimal.DigitsOfParse | anchor/programs/token_lottery/src/lib.rs:174 | every canonical digit string is the rendering of the number it denotes |
| Decimal.DigitsInjective | anchor/programs/token_lottery/src/lib.rs:174 | two numbers render alike if and only if they are equal |
| LotteryRuns.StepMonotone | anchor/programs/token_lottery/src/lib.rs:172-374 | no transaction changes the authority, window, price or bump, lowers the ticket count, releases the winner latch or changes a chosen winner |
| LotteryRuns.BuyValid | anchor/programs/token_lottery/src/lib.rs:194-289 | a successful purchase keeps the pot at most count times price, and equal to it before the draw |
| LotteryRuns.ChooseValid | anchor/programs/token_lottery/src/lib.rs:342-347 | a successful draw leaves a winner below the ticket count and at most 255, and the pot still accounted |
| LotteryRuns.ClaimValid | anchor/programs/token_lottery/src/lib.rs:366-371 | a successful claim leaves an empty pot, which stays within the invariant |
| LotteryRuns.StepAccounting | anchor/programs/token_lottery/src/lib.rs:194-289 | a transaction adds one ticket exactly when it is a successful purchase and, unless it is a successful claim, adds the price to the pot exactly then |
| LotteryRuns.StepValid | anchor/programs/token_lottery/src/lib.rs:172-374 | every transaction preserves the invariant: a chosen winner is below the ticket count and at most 255; the pot is at most count times price, and exactly that before the draw |
| LotteryRuns.RunValid | anchor/programs/token_lottery/src/lib.rs:172-374 | every sequence of transactions preserves that invariant |
| LotteryRuns.RunMonotone | anchor/programs/token_lottery/src/lib.rs:172-374 | over any sequence the configuration is fixed, the ticket count only grows, and a chosen winner stays chosen and unchanged |
| LotteryRuns.RunCountsPurchases | anchor/programs/token_lottery/src/lib.rs:172-293 | over any sequence the ticket count grows by exactly the number of successful purchases; while no claim succeeds, the pot grows by exactly that number times the price |
| LotteryRuns.Reachable | anchor/programs/token_lottery/src/lib.rs:53-374 | every record reachable from `initialize_config` satisfies the invariant, keeps the initial configuration, and counts exactly the successful purchases |
| LotteryRuns.PotMatchesTicketsUntilClaim | anchor/programs/token_lottery/src/lib.rs:53-351 | from initialization, as long as no claim has succeeded, pot equals ticket count times price; failed claim attempts do not matter |
| LotteryRuns.NoCommitNoDraw | anchor/programs/token_lottery/src/lib.rs:295-347 | with no successful commit, the record keeps the default randomness address and no winner is chosen, over any sequence of transactions |
| LotteryRuns.DrawFollowsCommit | anchor/programs/token_lottery/src/lib.rs:53-347 | from `initialize_config`, a `choose_winner` succeeds only after an earlier `commit_randomness` has succeeded |
| LotteryRuns.ChooseWinnerLatches | anchor/programs/token_lottery/src/lib.rs:327-347 | after a successful draw, a repeat past the end slot fails with `WinnerChosen`, and no later transaction changes the winner |
| LotteryRuns.CommitOverwrites | anchor/programs/token_lottery/src/lib.rs:295-313 | after a successful commit, a second commit naming any account other than the default address replaces the commitment; one naming the default address aborts |
| LotteryRuns.CommitBindsChoice | anchor/programs/token_lottery/src/lib.rs:310-325 | after committing an oracle account, the authority's draw with any other account fails with `IncorrectRandomnessAccount` |
| LotteryRuns.ClaimTwicePaysZero | anchor/programs/token_lottery/src/lib.rs:353-374 | a claim of the winning, verified, held ticket pays the whole pot, and the same claim repeated succeeds and pays 0 |
| LotteryRuns.OnlyWinningTicketClaims | anchor/programs/token_lottery/src/lib.rs:353-366 | given metadata that names ticket `n`, is verified and belongs to the collection, the program's own checks accept the claim if and only if `n` is the winner and the ticket is held, and refuse any other `n` with `IncorrectTicket`; the account constraints that would refuse such metadata earlier on chain are not modelled |
| LotteryRuns.BuyAfterWinnerAtEndTime | anchor/programs/token_lottery/src/lib.rs:176-331 | at slot `end_time` a purchase still succeeds after the winner is chosen, while a repeated draw fails with `WinnerChosen` |
| LotteryRuns.InvertedWindowSellsNothing | anchor/programs/token_lottery/src/lib.rs:53-179 | a lottery configured with `start_time > end_time` refuses every purchase with `LotteryNotOpen` |
| LotteryScenario.DrawSevenTickets | anchor/programs/token_lottery/src/lib.rs:342 | seven tickets and a random byte of 23 draw ticket 2 |
| LotteryScenario.EndToEnd | anchor/programs/token_lottery/src/lib.rs:53-374 | window 100..200 at price 50, three purchases, a commit at 201 seeded at 200, and a draw with byte 5 give winner 2; ticket 1 is refused and ticket 2 claims 150, then 0 |
| Counter.Initialize | anchor/programs/tokenlottery/src/lib.rs:25-47 | a new account reads 0; initializing an address already in use fails |
| Counter.Increment | anchor/programs/tokenlottery/src/lib.rs:20-23 | succeeds exactly when the count is below 255 and then raises it by one; at 255 it panics |
| Counter.Decrement | anchor/programs/tokenlottery/src/lib.rs:15-18 | succeeds exactly when the count is above 0 and then lowers it by one; at 0 it panics |
| Counter.Set | anchor/programs/tokenlottery/src/lib.rs:29-32 | succeeds on every existing account, and the count becomes the given value whatever it was |
| Counter.Close | anchor/programs/tokenlottery/src/lib.rs:49-57 | succeeds on every existing account and removes it |
| Counter.FailedUpdatesKeepAccount | anchor/programs/tokenlottery/src/lib.rs:15-23 | an increment at 255 and a decrement at 0 abort and leave the account unchanged |
| Counter.IncrementDecrementInverse | anchor/programs/tokenlottery/src/lib.rs:15-23 | a decrement undoes a successful increment, and an increment undoes a successful decrement |
| Counter.IncrementsSaturate | anchor/programs/tokenlottery/src/lib.rs:20-23 | `k` increment transactions from `c` leave `min(c + k, 255)` |
| Counter.DecrementsFloor | anchor/programs/tokenlottery/src/lib.rs:15-18 | `k` decrement transactions from `c` leave `max(c - k, 0)` |
| Counter.InitializeThenUpdates | anchor/programs/tokenlottery/src/lib.rs:15-27 | a freshly initialized counter behaves as a count of 0: `k` increments leave `min(k, 255)` and decrements leave 0 |
| Counter.SetThenUpdates | anchor/programs/tokenlottery/src/lib.rs:15-32 | after `set(v)` on any existing account, `k` increments leave `min(v + k, 255)` and `k` decrements leave `max(v - k, 0)` |
| Counter.ClosedAccountIsGone | anchor/programs/tokenlottery/src/lib.rs:49-64 | after `close`, increment, decrement, set and close all find no account, and `initialize` creates a new account reading 0 |
| Counter.TestSequence | anchor/tests/tokenlottery.spec.ts:16-75 | initialize reads 0, two increments read 1 then 2, a decrement reads 1, `set(42)` reads 42, and after `close` no account exists |

## Left out

- `initialize_lottery`: it creates the collection's mint, metadata and master edition through the token and metadata programs, whose code is outside this model. It changes no field of the lottery record.
- The calls inside `buy_ticket` to other programs. The system transfer of the price is one `Cpi` input (`transfer`). The mint, metadata, master-edition and collection-verification calls share a second one (`registry`). Each input either succeeds or aborts the whole transaction.
- The internals of the oracle's randomness account: parsing and `get_value`. Their results are the `OracleAccount` input, meaning unparseable data, or the seed slot and the value revealed at the instruction's slot (`None` while pending). The model fixes one thing about them: data at the default address never parses.
- Account validation by the Anchor framework: seed derivation, rent, signer checks and `init` space. The exception is the counter's account existence. On chain, `claim_prize` only accepts the metadata of the ticket mint derived from `winner`. In the model the metadata input is unconstrained, and the program's own name check stands in for that derived-address constraint. A claim with another ticket's metadata therefore fails here with `IncorrectTicket`, where on chain it fails account validation.
- Lamport bookkeeping beyond the pot counter: rent-exempt balances, the lottery account's lamport subtraction and `try_borrow_mut_lamports` failures. A claim's effect is the amount credited, which equals the old pot.
- `Clock::get()` failing, `msg!` logging, the `bump` seeds of other accounts, and the TypeScript test files, apart from the values they assert.
- Concurrency: each transaction is atomic and transactions are applied one at a time, as the runtime orders them.
- `u64` wrap-around: additions and the slot subtraction abort on overflow instead. Whether release builds check overflow is a build setting that is not part of this model.
- The 32-byte width of keys: keys are byte sequences compared for equality.
