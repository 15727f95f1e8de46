/** The scaffold counter program: one account holding a `u8` count, created by
    `initialize`, changed by `increment`, `decrement` and `set`, removed by `close`.
    The account slot is `None` while no account exists at its address. */
module Counter {
  import opened Results
  import opened Uint

  /** The counter account's data. */
  datatype Tokenlottery = Tokenlottery(count: u8)

  /** Why a counter transaction aborts. */
  datatype CounterFailure =
    | Panicked               // `unwrap()` of a `checked_add`/`checked_sub` that left the `u8` range
    | AccountNotInitialized  // the instruction names an address holding no counter account
    | AccountInUse           // `initialize` at an address that already holds an account

  type Account = Option<Tokenlottery>

  /** `initialize`: a new account whose count is 0. */
  function Initialize(a: Account): (r: Result<Account, CounterFailure>)
    ensures a.Some? ==> r == Err(AccountInUse)
    ensures a.None? ==> r.Ok? && r.value.Some? && r.value.value.count == 0
  {
    if a.Some? then Err(AccountInUse) else Ok(Some(Tokenlottery(0)))
  }

  /** `increment`: `count.checked_add(1).unwrap()`. */
  function Increment(a: Account): (r: Result<Account, CounterFailure>)
    ensures a.None? ==> r == Err(AccountNotInitialized)
    ensures a.Some? ==> (r.Ok? <==> a.value.count < U8_MAX)
    ensures a.Some? && r.Err? ==> r.error == Panicked
    ensures r.Ok? ==> r.value.Some? && r.value.value.count == a.value.count + 1
  {
    match a
    case None => Err(AccountNotInitialized)
    case Some(acct) =>
      match CheckedAdd(acct.count, 1, U8_MAX)
      case None => Err(Panicked)
      case Some(count) => Ok(Some(Tokenlottery(count)))
  }

  /** `decrement`: `count.checked_sub(1).unwrap()`. */
  function Decrement(a: Account): (r: Result<Account, CounterFailure>)
    ensures a.None? ==> r == Err(AccountNotInitialized)
    ensures a.Some? ==> (r.Ok? <==> a.value.count > 0)
    ensures a.Some? && r.Err? ==> r.error == Panicked
    ensures r.Ok? ==> r.value.Some? && r.value.value.count + 1 == a.value.count
  {
    match a
    case None => Err(AccountNotInitialized)
    case Some(acct) =>
      match CheckedSub(acct.count, 1)
      case None => Err(Panicked)
      case Some(count) => Ok(Some(Tokenlottery(count)))
  }

  /** `set(value)`: the count becomes `value` whatever it was. */
  function Set(a: Account, value: u8): (r: Result<Account, CounterFailure>)
    ensures a.None? <==> r == Err(AccountNotInitialized)
    ensures a.Some? ==> r.Ok?
    ensures r.Ok? ==> r.value == Some(Tokenlottery(value))
  {
    if a.None? then Err(AccountNotInitialized) else Ok(Some(Tokenlottery(value)))
  }

  /** `close`: the account is removed. */
  function Close(a: Account): (r: Result<Account, CounterFailure>)
    ensures a.None? <==> r == Err(AccountNotInitialized)
    ensures a.Some? ==> r.Ok?
    ensures r.Ok? ==> r.value.None?
  {
    if a.None? then Err(AccountNotInitialized) else Ok(None)
  }

  /** The account after a transaction: a failed one leaves it as it was. */
  function Apply(a: Account, r: Result<Account, CounterFailure>): Account {
    match r
    case Ok(b) => b
    case Err(_) => a
  }

  /** At the top of the range `increment` aborts and leaves the account unchanged; at the
      bottom `decrement` does. */
  lemma FailedUpdatesKeepAccount(a: Account)
    requires a.Some?
    ensures a.value.count == U8_MAX ==> Increment(a) == Err(Panicked) && Apply(a, Increment(a)) == a
    ensures a.value.count == 0 ==> Decrement(a) == Err(Panicked) && Apply(a, Decrement(a)) == a
  {
  }

  /** `decrement` undoes `increment` whenever the increment succeeds, and `increment`
      undoes `decrement` likewise. */
  lemma IncrementDecrementInverse(a: Account)
    requires a.Some?
    ensures a.value.count < U8_MAX ==> Decrement(Apply(a, Increment(a))) == Ok(a)
    ensures a.value.count > 0 ==> Increment(Apply(a, Decrement(a))) == Ok(a)
  {
  }

  /** The account after `k` increment transactions in a row. */
  function Increments(a: Account, k: nat): Account
    decreases k
  {
    if k == 0 then a else Increments(Apply(a, Increment(a)), k - 1)
  }

  /** The account after `k` decrement transactions in a row. */
  function Decrements(a: Account, k: nat): Account
    decreases k
  {
    if k == 0 then a else Decrements(Apply(a, Decrement(a)), k - 1)
  }

  /** Since an increment at 255 aborts without effect, `k` increments from `c` leave
      `min(c + k, 255)`. */
  lemma {:induction false} IncrementsSaturate(c: u8, k: nat)
    ensures Increments(Some(Tokenlottery(c)), k) == Some(Tokenlottery(if c + k <= U8_MAX then c + k else U8_MAX))
    decreases k
  {
    if k > 0 {
      if c < U8_MAX {
        IncrementsSaturate(c + 1, k - 1);
      } else {
        IncrementsSaturate(c, k - 1);
      }
    }
  }

  /** Since a decrement at 0 aborts without effect, `k` decrements from `c` leave
      `max(c - k, 0)`. */
  lemma {:induction false} DecrementsFloor(c: u8, k: nat)
    ensures Decrements(Some(Tokenlottery(c)), k) == Some(Tokenlottery(if k <= c then c - k else 0))
    decreases k
  {
    if k > 0 {
      if c > 0 {
        DecrementsFloor(c - 1, k - 1);
      } else {
        DecrementsFloor(c, k - 1);
      }
    }
  }

  /** After `close`, every instruction but `initialize` finds no account, and
      `initialize` creates a fresh one reading 0 again. */
  lemma ClosedAccountIsGone(a: Account, value: u8)
    requires Close(a).Ok?
    ensures var gone := Apply(a, Close(a));
      && Increment(gone) == Err(AccountNotInitialized)
      && Decrement(gone) == Err(AccountNotInitialized)
      && Set(gone, value) == Err(AccountNotInitialized)
      && Close(gone) == Err(AccountNotInitialized)
      && Initialize(gone) == Ok(Some(Tokenlottery(0)))
  {
  }

  /** A freshly initialized counter behaves as a count of 0: `k` increments leave
      `min(k, 255)` and any decrement aborts. */
  lemma InitializeThenUpdates(k: nat)
    ensures var a0 := Apply(None, Initialize(None));
      && Increments(a0, k) == Some(Tokenlottery(if k <= U8_MAX then k else U8_MAX))
      && Decrements(a0, k) == Some(Tokenlottery(0))
  {
    IncrementsSaturate(0, k);
    DecrementsFloor(0, k);
  }

  /** Whatever the count was, after `set(value)` the account behaves as one holding
      `value`: `k` increments leave `min(value + k, 255)` and `k` decrements leave
      `max(value - k, 0)`. */
  lemma SetThenUpdates(a: Account, value: u8, k: nat)
    requires a.Some?
    ensures var b := Apply(a, Set(a, value));
      && Increments(b, k) == Some(Tokenlottery(if value + k <= U8_MAX then value + k else U8_MAX))
      && Decrements(b, k) == Some(Tokenlottery(if k <= value then value - k else 0))
  {
    IncrementsSaturate(value, k);
    DecrementsFloor(value, k);
  }

  /** The counter's test sequence: initialize reads 0, two increments read 1 and 2, a
      decrement reads 1, `set(42)` reads 42, and after `close` no account exists. */
  lemma TestSequence()
    ensures
      var a0 := Apply(None, Initialize(None));
      var a1 := Apply(a0, Increment(a0));
      var a2 := Apply(a1, Increment(a1));
      var a3 := Apply(a2, Decrement(a2));
      var a4 := Apply(a3, Set(a3, 42));
      var a5 := Apply(a4, Close(a4));
      && a0 == Some(Tokenlottery(0))
      && a1 == Some(Tokenlottery(1))
      && a2 == Some(Tokenlottery(2))
      && a3 == Some(Tokenlottery(1))
      && a4 == Some(Tokenlottery(42))
      && a5 == None
  {
  }
}
