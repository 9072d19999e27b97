/**
 * The time-locked ledger of the `Lock` contract. Every account holds a
 * balance in wei and the time (in seconds) from which that balance may be
 * withdrawn. The first deposit of a cycle fixes the unlock time; top-ups add
 * to the balance without moving it; a withdrawal pays out everything and
 * closes the cycle. The current block time is passed in as `now`.
 */
module LockLedger {
  import opened Outcome

  type Address = string

  /** `1 days` in Solidity: the lock duration is given in days. */
  const SecondsPerDay: nat := 24 * 60 * 60

  /** One account's record. An account that never deposited reads as `Empty`. */
  datatype AccountLock = AccountLock(balance: nat, unlockTime: nat)

  const Empty := AccountLock(0, 0)

  /** An account either holds nothing and no lock, or holds funds under a lock. */
  predicate WellFormed(acct: AccountLock) {
    acct.balance == 0 <==> acct.unlockTime == 0
  }

  /** The reasons a transaction reverts. */
  datatype Revert = ZeroAmount | ZeroDuration | NoFunds | StillLocked

  /** The revert string the contract reports for each reason. */
  function Reason(e: Revert): (text: string)
    ensures text != ""
  {
    match e
    case ZeroAmount => "Must deposit some amount"
    case ZeroDuration => "Lock duration must be greater than 0"
    case NoFunds => "No funds to withdraw"
    case StillLocked => "Funds are still locked"
  }

  /** The events the contract emits. */
  datatype Event =
    | Deposit(user: Address, amount: nat, unlockTime: nat)
    | Withdrawal(user: Address, amount: nat)

  /**
   * The rule of `deposit` for the caller's own record: `value` wei locked
   * for `days` days at time `now`.
   */
  function DepositOn(acct: AccountLock, value: nat, days: nat, now: nat): (r: Result<AccountLock, Revert>)
    ensures r == Err(ZeroAmount) <==> value == 0
    ensures r == Err(ZeroDuration) <==> value > 0 && days == 0 && acct.balance == 0
    ensures r.Ok? <==> value > 0 && (days > 0 || acct.balance > 0)
    ensures r.Ok? ==> r.value.balance == acct.balance + value
    ensures r.Ok? && acct.balance == 0 ==> r.value.unlockTime == now + days * SecondsPerDay
    ensures r.Ok? && acct.balance > 0 ==> r.value.unlockTime == acct.unlockTime
    ensures r.Ok? && WellFormed(acct) ==> WellFormed(r.value)
  {
    if value == 0 then Err(ZeroAmount)
    else if acct.balance == 0 && days == 0 then Err(ZeroDuration)
    else if acct.balance == 0 then Ok(AccountLock(value, now + days * SecondsPerDay))
    else Ok(acct.(balance := acct.balance + value))
  }

  /** The rule of `withdraw` for the caller's own record: the amount paid out. */
  function WithdrawOn(acct: AccountLock, now: nat): (r: Result<nat, Revert>)
    ensures r == Err(NoFunds) <==> acct.balance == 0
    ensures r == Err(StillLocked) <==> acct.balance > 0 && now < acct.unlockTime
    ensures r.Ok? <==> acct.balance > 0 && now >= acct.unlockTime
    ensures r.Ok? ==> r.value == acct.balance
  {
    if acct.balance == 0 then Err(NoFunds)
    else if now < acct.unlockTime then Err(StillLocked)
    else Ok(acct.balance)
  }

  /** The contract's storage: one record per account that ever deposited. */
  type Ledger = map<Address, AccountLock>

  /** `getBalance` / `getUnlockTime` read this: unknown accounts read as zero. */
  function Account(m: Ledger, a: Address): AccountLock {
    if a in m then m[a] else Empty
  }

  predicate Consistent(m: Ledger) {
    forall a :: a in m ==> WellFormed(m[a])
  }

  /** The new storage and the event of a successful transaction. */
  datatype Receipt = Receipt(ledger: Ledger, event: Event)

  /** A whole `deposit` transaction sent by `caller`. */
  function ApplyDeposit(m: Ledger, caller: Address, value: nat, days: nat, now: nat): (r: Result<Receipt, Revert>)
    ensures r.Err? <==> DepositOn(Account(m, caller), value, days, now).Err?
    ensures r.Err? ==> r.error == DepositOn(Account(m, caller), value, days, now).error
    ensures r.Ok? ==> Account(r.value.ledger, caller) == DepositOn(Account(m, caller), value, days, now).value
    ensures r.Ok? ==> r.value.event == Deposit(caller, value, Account(r.value.ledger, caller).unlockTime)
    ensures r.Ok? ==> forall b :: b != caller ==> Account(r.value.ledger, b) == Account(m, b)
    ensures r.Ok? && Consistent(m) ==> Consistent(r.value.ledger)
  {
    match DepositOn(Account(m, caller), value, days, now)
    case Err(e) => Err(e)
    case Ok(acct) => Ok(Receipt(m[caller := acct], Deposit(caller, value, acct.unlockTime)))
  }

  /** A whole `withdraw` transaction sent by `caller`. */
  function ApplyWithdraw(m: Ledger, caller: Address, now: nat): (r: Result<Receipt, Revert>)
    ensures r.Err? <==> WithdrawOn(Account(m, caller), now).Err?
    ensures r.Err? ==> r.error == WithdrawOn(Account(m, caller), now).error
    ensures r.Ok? ==> Account(r.value.ledger, caller) == Empty
    ensures r.Ok? ==> r.value.event == Withdrawal(caller, Account(m, caller).balance)
    ensures r.Ok? ==> forall b :: b != caller ==> Account(r.value.ledger, b) == Account(m, b)
    ensures r.Ok? && Consistent(m) ==> Consistent(r.value.ledger)
  {
    match WithdrawOn(Account(m, caller), now)
    case Err(e) => Err(e)
    case Ok(amount) => Ok(Receipt(m[caller := Empty], Withdrawal(caller, amount)))
  }

  /** The sum of all balances: what the contract must hold. */
  ghost function Total(m: Ledger): nat
    decreases |m|
  {
    if m == map[] then 0
    else
      var a :| a in m;
      m[a].balance + Total(m - {a})
  }

  /** Taking one account out of the sum, whichever account the sum picked first. */
  lemma {:induction false} TotalRemove(m: Ledger, a: Address)
    requires a in m
    ensures Total(m) == m[a].balance + Total(m - {a})
    decreases |m|
  {
    var k :| k in m && Total(m) == m[k].balance + Total(m - {k});
    if k != a {
      assert |m - {k}| < |m|;
      TotalRemove(m - {k}, a);
      TotalRemove(m - {a}, k);
      assert m - {k} - {a} == m - {a} - {k};
    }
  }

  /** The sum after one account's record is replaced. */
  lemma TotalUpdate(m: Ledger, a: Address, acct: AccountLock)
    ensures Total(m[a := acct]) + Account(m, a).balance == Total(m) + acct.balance
  {
    TotalRemove(m[a := acct], a);
    assert m[a := acct] - {a} == m - {a};
    if a in m {
      TotalRemove(m, a);
    } else {
      assert m - {a} == m;
    }
  }

  /** No single account holds more than the sum of all of them. */
  lemma BalanceWithinTotal(m: Ledger, a: Address)
    ensures Account(m, a).balance <= Total(m)
  {
    if a in m {
      TotalRemove(m, a);
    }
  }

  /** One `deposit` call of a sequence sent by the same account. */
  datatype DepositCall = DepositCall(value: nat, days: nat, now: nat)

  /** Runs a sequence of deposits on one record, stopping at the first revert. */
  function Replay(acct: AccountLock, calls: seq<DepositCall>): Result<AccountLock, Revert>
    decreases |calls|
  {
    if calls == [] then Ok(acct)
    else
      match DepositOn(acct, calls[0].value, calls[0].days, calls[0].now)
      case Err(e) => Err(e)
      case Ok(next) => Replay(next, calls[1..])
  }

  function SumValues(calls: seq<DepositCall>): nat
    decreases |calls|
  {
    if calls == [] then 0 else calls[0].value + SumValues(calls[1..])
  }

  /** Top-ups into a funded account accumulate and never move its unlock time. */
  lemma {:induction false} TopUpsAccumulate(acct: AccountLock, calls: seq<DepositCall>)
    requires acct.balance > 0
    requires forall i :: 0 <= i < |calls| ==> calls[i].value > 0
    ensures Replay(acct, calls) == Ok(AccountLock(acct.balance + SumValues(calls), acct.unlockTime))
    decreases |calls|
  {
    if calls != [] {
      var next := AccountLock(acct.balance + calls[0].value, acct.unlockTime);
      assert DepositOn(acct, calls[0].value, calls[0].days, calls[0].now) == Ok(next);
      TopUpsAccumulate(next, calls[1..]);
    }
  }

  /**
   * From an empty account, a run of deposits ends with the sum of the
   * amounts, locked until the time the first deposit fixed.
   */
  lemma DepositsAccumulate(calls: seq<DepositCall>)
    requires calls != [] && calls[0].days > 0
    requires forall i :: 0 <= i < |calls| ==> calls[i].value > 0
    ensures Replay(Empty, calls)
         == Ok(AccountLock(SumValues(calls), calls[0].now + calls[0].days * SecondsPerDay))
  {
    var first := AccountLock(calls[0].value, calls[0].now + calls[0].days * SecondsPerDay);
    assert DepositOn(Empty, calls[0].value, calls[0].days, calls[0].now) == Ok(first);
    TopUpsAccumulate(first, calls[1..]);
  }

  /**
   * After a successful withdrawal the caller is back to an empty account,
   * so the next deposit starts a fresh lock instead of reusing the old one.
   */
  lemma WithdrawStartsNewCycle(m: Ledger, caller: Address, now: nat, value: nat, days: nat, later: nat)
    requires ApplyWithdraw(m, caller, now).Ok?
    requires value > 0 && days > 0
    ensures var after := ApplyWithdraw(m, caller, now).value.ledger;
            ApplyDeposit(after, caller, value, days, later).Ok?
            && Account(ApplyDeposit(after, caller, value, days, later).value.ledger, caller)
               == AccountLock(value, later + days * SecondsPerDay)
  {
  }

  /** The deployed contract: the accounts' records and the ether it holds. */
  class Lock {
    var accounts: Ledger
    var held: nat

    ghost predicate Valid()
      reads this
    {
      Consistent(accounts) && held == Total(accounts)
    }

    constructor ()
      ensures Valid()
      ensures accounts == map[] && held == 0
    {
      accounts := map[];
      held := 0;
    }

    /** `getBalance()` as sent by `caller`: zero for an account that never deposited. */
    function GetBalance(caller: Address): (b: nat)
      reads this
      requires Valid()
      ensures caller !in accounts ==> b == 0
      ensures caller in accounts ==> b == accounts[caller].balance
      ensures b <= held
    {
      BalanceWithinTotal(accounts, caller);
      Account(accounts, caller).balance
    }

    /** `getUnlockTime()` as sent by `caller`: zero when no lock is active. */
    function GetUnlockTime(caller: Address): (t: nat)
      reads this
      requires Valid()
      ensures caller !in accounts ==> t == 0
      ensures caller in accounts ==> t == accounts[caller].unlockTime
      ensures t == 0 <==> GetBalance(caller) == 0
    {
      Account(accounts, caller).unlockTime
    }

    /** `deposit(days)` sent by `caller` with `value` wei attached, at block time `now`. */
    method Deposit(caller: Address, value: nat, days: nat, now: nat) returns (r: Result<Event, Revert>)
      requires Valid()
      modifies this
      ensures Valid()
      ensures match ApplyDeposit(old(accounts), caller, value, days, now)
              case Err(e) => r == Err(e) && accounts == old(accounts) && held == old(held)
              case Ok(receipt) => r == Ok(receipt.event) && accounts == receipt.ledger && held == old(held) + value
    {
      if value == 0 {
        return Err(ZeroAmount);
      }
      var acct := Account(accounts, caller);
      if acct.balance == 0 {
        if days == 0 {
          return Err(ZeroDuration);
        }
        acct := acct.(unlockTime := now + days * SecondsPerDay);
      }
      acct := acct.(balance := acct.balance + value);
      TotalUpdate(accounts, caller, acct);
      accounts := accounts[caller := acct];
      held := held + value;
      r := Ok(Event.Deposit(caller, value, acct.unlockTime));
    }

    /** `withdraw()` sent by `caller` at block time `now`: pays out the whole balance. */
    method Withdraw(caller: Address, now: nat) returns (r: Result<Event, Revert>)
      requires Valid()
      modifies this
      ensures Valid()
      ensures match ApplyWithdraw(old(accounts), caller, now)
              case Err(e) => r == Err(e) && accounts == old(accounts) && held == old(held)
              case Ok(receipt) => r == Ok(receipt.event) && accounts == receipt.ledger
                                  && held == old(held) - receipt.event.amount
    {
      var acct := Account(accounts, caller);
      if acct.balance == 0 {
        return Err(NoFunds);
      }
      if now < acct.unlockTime {
        return Err(StillLocked);
      }
      var amount := acct.balance;
      TotalUpdate(accounts, caller, Empty);
      BalanceWithinTotal(accounts, caller);
      accounts := accounts[caller := Empty];
      held := held - amount;
      r := Ok(Event.Withdrawal(caller, amount));
    }
  }

  /**
   * A worked example against one deployment, in the spirit of the contract's
   * test suite but not a copy of it: the two deposit reverts, a seven-day
   * deposit, a 30-day top-up ten seconds later that keeps the first unlock
   * time, reads of both accounts, and withdrawals one second early, on time
   * and once more.
   */
  method DepositWithdrawExample(owner: Address, other: Address, t0: nat)
    requires owner != other
  {
    var oneEther := 1_000_000_000_000_000_000;
    var week := 7 * SecondsPerDay;
    var lock := new Lock();

    var r := lock.Deposit(owner, 0, 7, t0);
    assert r == Err(ZeroAmount);
    r := lock.Deposit(owner, oneEther, 0, t0);
    assert r == Err(ZeroDuration);

    r := lock.Deposit(owner, oneEther, 7, t0);
    assert r == Ok(Event.Deposit(owner, oneEther, t0 + week));
    r := lock.Deposit(owner, oneEther, 30, t0 + 10);
    assert r == Ok(Event.Deposit(owner, oneEther, t0 + week));
    assert lock.GetBalance(owner) == 2 * oneEther;
    assert lock.GetBalance(other) == 0;

    r := lock.Withdraw(owner, t0 + week - 1);
    assert r == Err(StillLocked);
    r := lock.Withdraw(owner, t0 + week);
    assert r == Ok(Withdrawal(owner, 2 * oneEther));
    assert lock.held == 0 && lock.GetUnlockTime(owner) == 0;
    r := lock.Withdraw(owner, t0 + week);
    assert r == Err(NoFunds);
  }
}
