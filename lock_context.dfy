/**
 * The client-side controller that mirrors one account's lock: the state the
 * provider keeps (`amount`, `duration`, `balance`, `unlockTime`, `loading`,
 * `error`, `connected`, `timeLeft`), the handlers that update it around the
 * awaited calls to the wallet and the contract, and the countdown derived
 * from the unlock time. Every awaited call is an input: its reply (a value,
 * or a rejection with an optional `reason`) is passed in.
 */
module LockContext {
  import opened Outcome
  import opened Decimal
  import LockLedger
  import Web3Config

  /** The provider's state. `balance` is in wei; `amount` and `duration` are the form's text. */
  datatype View = View(
    amount: string, duration: string, balance: nat, unlockTime: nat,
    loading: bool, error: string, connected: bool, timeLeft: string)

  /** The `useState` initial values. */
  const Initial := View("", "", 0, 0, false, "", false, "")

  /** The reply to a contract read (`getBalance`, `getUnlockTime`). */
  datatype ReadReply = Read(value: nat) | ReadFailed

  /** The reply to a transaction (`deposit`, `withdraw`): mined, or rejected with ethers' `reason`. */
  datatype TxReply = Confirmed | Failed(reason: Option<string>)

  /** The reply to `connectWallet()`. */
  type ConnectReply = Result<Web3Config.Signer, Web3Config.Failure>

  /** An awaited call the provider issues, in order. */
  datatype Call =
    | ConnectWalletCall
    | DepositCall(days: NumberValue, amount: string)
    | WithdrawCall
    | GetBalanceCall
    | GetUnlockTimeCall

  /** The state after a handler, and the calls it issued. */
  datatype Step = Step(view: View, calls: seq<Call>)

  const ConnectFailed := "Failed to connect wallet"
  const DepositFailed := "Error depositing funds"
  const WithdrawFailed := "Error withdrawing funds"
  const UnlockReached := "Unlock time reached"
  const NoActiveLock := "No active lock"

  /** `error.reason || fallback`: an absent or empty reason gives the fallback. */
  function ErrorText(reason: Option<string>, fallback: string): (text: string)
    ensures reason.Some? && reason.value != "" ==> text == reason.value
    ensures reason.None? || reason.value == "" ==> text == fallback
  {
    if reason.Some? && reason.value != "" then reason.value else fallback
  }

  /** `loadContractData`: read the balance, then the unlock time, then set both. */
  function AfterLoad(v: View, balance: ReadReply, unlockTime: ReadReply): (s: Step)
    ensures s.view.(balance := v.balance, unlockTime := v.unlockTime) == v
    ensures balance.Read? && unlockTime.Read?
            ==> s.view.balance == balance.value && s.view.unlockTime == unlockTime.value
    ensures !(balance.Read? && unlockTime.Read?) ==> s.view == v
    ensures |s.calls| >= 1 && s.calls[0] == GetBalanceCall
    ensures s.calls == [GetBalanceCall, GetUnlockTimeCall] <==> balance.Read?
    ensures balance.ReadFailed? ==> s.calls == [GetBalanceCall]
  {
    match balance
    case ReadFailed => Step(v, [GetBalanceCall])
    case Read(b) =>
      match unlockTime
      case ReadFailed => Step(v, [GetBalanceCall, GetUnlockTimeCall])
      case Read(u) => Step(v.(balance := b, unlockTime := u), [GetBalanceCall, GetUnlockTimeCall])
  }

  /** `handleConnect`: connect, mark connected, refresh; a failure only sets the error. */
  function AfterConnect(v: View, connect: ConnectReply, balance: ReadReply, unlockTime: ReadReply): (s: Step)
    ensures connect.Err? ==> s == Step(v.(error := ConnectFailed), [ConnectWalletCall])
    ensures connect.Ok? ==> s.view.connected && s.view.error == v.error
    ensures connect.Ok? ==> |s.calls| >= 1 && s.calls[0] == ConnectWalletCall
                            && Step(s.view, s.calls[1..]) == AfterLoad(v.(connected := true), balance, unlockTime)
  {
    match connect
    case Err(_) => Step(v.(error := ConnectFailed), [ConnectWalletCall])
    case Ok(_) =>
      var load := AfterLoad(v.(connected := true), balance, unlockTime);
      Step(load.view, [ConnectWalletCall] + load.calls)
  }

  /** The days passed to `deposit`: 1 when the field is empty, otherwise `Number(duration)`. */
  function DepositDays(duration: string): (days: NumberValue)
    ensures duration == "" ==> days == Integer(1)
    ensures duration != "" && AllDigits(duration) ==> days == Integer(Value(duration))
    ensures !AllDigits(duration) ==> days == Unparsed(duration)
  {
    if |duration| > 0 then NumberOf(duration) else Integer(1)
  }

  /**
   * `handleDeposit`: set loading and clear the error, send the deposit,
   * refresh and clear the form on success, report the reason on failure,
   * and end with loading cleared either way.
   */
  function AfterDeposit(v: View, tx: TxReply, balance: ReadReply, unlockTime: ReadReply): (s: Step)
    ensures !s.view.loading
    ensures s.view.connected == v.connected && s.view.timeLeft == v.timeLeft
    ensures |s.calls| >= 1 && s.calls[0] == DepositCall(DepositDays(v.duration), v.amount)
    ensures tx.Confirmed? ==> s.view.error == "" && s.view.amount == "" && s.view.duration == ""
    ensures tx.Confirmed? ==> var load := AfterLoad(v, balance, unlockTime);
                              s.view.balance == load.view.balance && s.view.unlockTime == load.view.unlockTime
                              && s.calls[1..] == load.calls
    ensures tx.Failed? ==> s == Step(v.(loading := false, error := ErrorText(tx.reason, DepositFailed)),
                                     [DepositCall(DepositDays(v.duration), v.amount)])
  {
    var started := v.(loading := true, error := "");
    var call := DepositCall(DepositDays(v.duration), v.amount);
    match tx
    case Failed(reason) =>
      Step(started.(error := ErrorText(reason, DepositFailed), loading := false), [call])
    case Confirmed =>
      var load := AfterLoad(started, balance, unlockTime);
      Step(load.view.(amount := "", duration := "", loading := false), [call] + load.calls)
  }

  /** `handleWithdraw`: the same shape as `handleDeposit`, without a form to clear. */
  function AfterWithdraw(v: View, tx: TxReply, balance: ReadReply, unlockTime: ReadReply): (s: Step)
    ensures !s.view.loading
    ensures s.view.connected == v.connected && s.view.timeLeft == v.timeLeft
    ensures s.view.amount == v.amount && s.view.duration == v.duration
    ensures |s.calls| >= 1 && s.calls[0] == WithdrawCall
    ensures tx.Confirmed? ==> var load := AfterLoad(v, balance, unlockTime);
                              s.view.error == "" && s.view.balance == load.view.balance
                              && s.view.unlockTime == load.view.unlockTime && s.calls[1..] == load.calls
    ensures tx.Failed? ==> s == Step(v.(loading := false, error := ErrorText(tx.reason, WithdrawFailed)), [WithdrawCall])
  {
    var started := v.(loading := true, error := "");
    match tx
    case Failed(reason) =>
      Step(started.(error := ErrorText(reason, WithdrawFailed), loading := false), [WithdrawCall])
    case Confirmed =>
      var load := AfterLoad(started, balance, unlockTime);
      Step(load.view.(loading := false), [WithdrawCall] + load.calls)
  }

  // ---------------------------------------------------------------------
  // The countdown
  // ---------------------------------------------------------------------

  const SecondsPerMinute := 60
  const SecondsPerHour := 60 * 60
  /** The frontend computes its own `60 * 60 * 24`; it agrees with the ledger's day length. */
  const SecondsPerDay := 60 * 60 * 24

  /** The time left before the unlock time, split into days, hours, minutes and seconds. */
  datatype Countdown = Reached | Remaining(days: nat, hours: nat, minutes: nat, seconds: nat)

  function Seconds(days: nat, hours: nat, minutes: nat, seconds: nat): nat {
    days * SecondsPerDay + hours * SecondsPerHour + minutes * SecondsPerMinute + seconds
  }

  predicate Normalized(hours: nat, minutes: nat, seconds: nat) {
    hours < 24 && minutes < 60 && seconds < 60
  }

  /** `calculateTimeLeft` at wall-clock time `nowMillis` (what `Date.now()` returns). */
  function CalculateTimeLeft(unlockTime: nat, nowMillis: nat): (c: Countdown)
    ensures c == Reached <==> unlockTime <= nowMillis / 1000
    ensures c.Remaining? ==> Normalized(c.hours, c.minutes, c.seconds)
                             && Seconds(c.days, c.hours, c.minutes, c.seconds) == unlockTime - nowMillis / 1000
  {
    var now := nowMillis / 1000;
    var difference := unlockTime - now;
    if difference <= 0 then Reached
    else
      SplitDifference(difference);
      Remaining(difference / SecondsPerDay,
                (difference % SecondsPerDay) / SecondsPerHour,
                (difference % SecondsPerHour) / SecondsPerMinute,
                difference % SecondsPerMinute)
  }

  /** The seconds left over after whole hours are the same within the rest of a day. */
  lemma HourRest(n: nat)
    ensures (n % SecondsPerDay) % SecondsPerHour == n % SecondsPerHour
  {
    var rest := n % SecondsPerDay;
    assert n == (n / SecondsPerDay) * SecondsPerDay + rest;
    assert n == ((n / SecondsPerDay) * 24 + rest / SecondsPerHour) * SecondsPerHour + rest % SecondsPerHour;
  }

  /** The seconds left over after whole minutes are the same within the rest of an hour. */
  lemma MinuteRest(n: nat)
    ensures (n % SecondsPerHour) % SecondsPerMinute == n % SecondsPerMinute
  {
    var rest := n % SecondsPerHour;
    assert n == ((n / SecondsPerHour) * 60 + rest / SecondsPerMinute) * SecondsPerMinute + rest % SecondsPerMinute;
  }

  /** Days, then hours of the rest of the day, then minutes of the rest of the hour, add back up. */
  lemma SplitDifference(difference: nat)
    ensures Normalized((difference % SecondsPerDay) / SecondsPerHour,
                       (difference % SecondsPerHour) / SecondsPerMinute, difference % SecondsPerMinute)
    ensures Seconds(difference / SecondsPerDay, (difference % SecondsPerDay) / SecondsPerHour,
                    (difference % SecondsPerHour) / SecondsPerMinute, difference % SecondsPerMinute)
            == difference
  {
    HourRest(difference);
    MinuteRest(difference);
  }

  /** A remaining time has exactly one normalized split: the one `calculateTimeLeft` computes. */
  lemma CountdownUnique(unlockTime: nat, nowMillis: nat, days: nat, hours: nat, minutes: nat, seconds: nat)
    requires Normalized(hours, minutes, seconds)
    requires Seconds(days, hours, minutes, seconds) > 0
    requires unlockTime - nowMillis / 1000 == Seconds(days, hours, minutes, seconds)
    ensures CalculateTimeLeft(unlockTime, nowMillis) == Remaining(days, hours, minutes, seconds)
  {
    var c := CalculateTimeLeft(unlockTime, nowMillis);
    SplitUnique(c.days, c.hours, c.minutes, c.seconds, days, hours, minutes, seconds);
  }

  lemma SplitUnique(d1: nat, h1: nat, m1: nat, s1: nat, d2: nat, h2: nat, m2: nat, s2: nat)
    requires Normalized(h1, m1, s1) && Normalized(h2, m2, s2)
    requires Seconds(d1, h1, m1, s1) == Seconds(d2, h2, m2, s2)
    ensures d1 == d2 && h1 == h2 && m1 == m2 && s1 == s2
  {
  }

  /** The text `${days}d ${hours}h ${minutes}m ${seconds}s`, or the sentinel once the time is reached. */
  function CountdownText(c: Countdown): (text: string)
    ensures c.Reached? <==> text == UnlockReached
  {
    match c
    case Reached => UnlockReached
    case Remaining(d, h, m, s) =>
      var text := ToDecimal(d) + "d " + ToDecimal(h) + "h " + ToDecimal(m) + "m " + ToDecimal(s) + "s";
      assert IsDigit(text[0]);
      text
  }

  /** One run of the countdown effect: nothing at all while the unlock time is 0. */
  function AfterTick(v: View, nowMillis: nat): (w: View)
    ensures v.unlockTime == 0 ==> w == v
    ensures v.unlockTime != 0 ==> w.(timeLeft := v.timeLeft) == v
    ensures v.unlockTime != 0 && v.unlockTime <= nowMillis / 1000 ==> w.timeLeft == UnlockReached
    ensures v.unlockTime > nowMillis / 1000
            ==> exists d: nat, h: nat, m: nat, s: nat {:trigger Seconds(d, h, m, s)} ::
                  Normalized(h, m, s) && Seconds(d, h, m, s) == v.unlockTime - nowMillis / 1000
                  && w.timeLeft == CountdownText(Remaining(d, h, m, s))
  {
    if v.unlockTime == 0 then v
    else
      var c := CalculateTimeLeft(v.unlockTime, nowMillis);
      v.(timeLeft := CountdownText(c))
  }

  /** `formatDate`: the sentinel for 0, otherwise the locale rendering of the instant in milliseconds. */
  function FormatDate(timestamp: nat, toLocaleString: nat -> string): (text: string)
    ensures timestamp == 0 ==> text == NoActiveLock
    ensures timestamp != 0 ==> text == toLocaleString(timestamp * 1000)
  {
    if timestamp == 0 then NoActiveLock else toLocaleString(timestamp * 1000)
  }

  // ---------------------------------------------------------------------
  // Properties across handlers
  // ---------------------------------------------------------------------

  /** A refresh either brings both fields or neither: never a balance with a stale unlock time. */
  lemma LoadNeverHalfUpdates(v: View, balance: ReadReply, unlockTime: ReadReply)
    ensures var w := AfterLoad(v, balance, unlockTime).view;
            (w.balance, w.unlockTime) == (v.balance, v.unlockTime)
            || (balance.Read? && unlockTime.Read? && (w.balance, w.unlockTime) == (balance.value, unlockTime.value))
    ensures AfterLoad(v, balance, unlockTime).view.error == v.error
  {
  }

  /** A confirmed deposit clears the form even when the refresh that follows fails. */
  lemma DepositClearsFormDespiteRefreshFailure(v: View, unlockTime: ReadReply)
    ensures var w := AfterDeposit(v, Confirmed, ReadFailed, unlockTime).view;
            w.amount == "" && w.duration == "" && w.error == ""
            && w.balance == v.balance && w.unlockTime == v.unlockTime
  {
  }

  /**
   * After a confirmed deposit whose refresh reads the ledger, the view shows
   * exactly the caller's record in the ledger.
   */
  lemma DepositViewMatchesLedger(v: View, m: LockLedger.Ledger, caller: LockLedger.Address,
                                 value: nat, days: nat, now: nat)
    requires LockLedger.ApplyDeposit(m, caller, value, days, now).Ok?
    ensures var after := LockLedger.Account(LockLedger.ApplyDeposit(m, caller, value, days, now).value.ledger, caller);
            var w := AfterDeposit(v, Confirmed, Read(after.balance), Read(after.unlockTime)).view;
            w.balance == after.balance && w.unlockTime == after.unlockTime
            && w.balance == LockLedger.Account(m, caller).balance + value
  {
  }

  /** A withdrawal the ledger refuses shows the contract's revert string. */
  lemma WithdrawRevertShown(v: View, m: LockLedger.Ledger, caller: LockLedger.Address, now: nat,
                            balance: ReadReply, unlockTime: ReadReply)
    requires LockLedger.ApplyWithdraw(m, caller, now).Err?
    ensures var e := LockLedger.ApplyWithdraw(m, caller, now).error;
            AfterWithdraw(v, Failed(Some(LockLedger.Reason(e))), balance, unlockTime).view.error
            == LockLedger.Reason(e)
  {
  }

  /** Without MetaMask, connecting leaves the provider disconnected and reports the failure. */
  lemma ConnectWithoutWallet(v: View, env: Web3Config.WalletEnv, balance: ReadReply, unlockTime: ReadReply)
    requires !Web3Config.MetaMaskDetected(env)
    ensures var s := AfterConnect(v, Web3Config.ConnectWallet(env).outcome, balance, unlockTime);
            s.view.connected == v.connected && s.view.error == ConnectFailed && s.calls == [ConnectWalletCall]
  {
  }

  // ---------------------------------------------------------------------
  // The provider
  // ---------------------------------------------------------------------

  /** `LockProvider`: its `useState` fields, and the handlers that update them in order. */
  class LockProvider {
    var amount: string
    var duration: string
    var balance: nat
    var unlockTime: nat
    var loading: bool
    var error: string
    var connected: bool
    var timeLeft: string

    function Snapshot(): View
      reads this
    {
      View(amount, duration, balance, unlockTime, loading, error, connected, timeLeft)
    }

    constructor ()
      ensures Snapshot() == Initial
    {
      amount, duration := "", "";
      balance, unlockTime := 0, 0;
      loading, error, connected, timeLeft := false, "", false, "";
    }

    method SetAmount(text: string)
      modifies this
      ensures Snapshot() == old(Snapshot()).(amount := text)
    {
      amount := text;
    }

    method SetDuration(text: string)
      modifies this
      ensures Snapshot() == old(Snapshot()).(duration := text)
    {
      duration := text;
    }

    /** Also the mount effect: the provider loads the contract data once when it appears. */
    method LoadContractData(balanceReply: ReadReply, unlockTimeReply: ReadReply) returns (calls: seq<Call>)
      modifies this
      ensures Step(Snapshot(), calls) == AfterLoad(old(Snapshot()), balanceReply, unlockTimeReply)
    {
      calls := [GetBalanceCall];
      if balanceReply.ReadFailed? {
        return;
      }
      calls := calls + [GetUnlockTimeCall];
      if unlockTimeReply.ReadFailed? {
        return;
      }
      balance := balanceReply.value;
      unlockTime := unlockTimeReply.value;
    }

    method HandleConnect(connect: ConnectReply, balanceReply: ReadReply, unlockTimeReply: ReadReply)
      returns (calls: seq<Call>)
      modifies this
      ensures Step(Snapshot(), calls) == AfterConnect(old(Snapshot()), connect, balanceReply, unlockTimeReply)
    {
      calls := [ConnectWalletCall];
      if connect.Err? {
        error := ConnectFailed;
        return;
      }
      connected := true;
      var loadCalls := LoadContractData(balanceReply, unlockTimeReply);
      calls := calls + loadCalls;
    }

    method HandleDeposit(tx: TxReply, balanceReply: ReadReply, unlockTimeReply: ReadReply)
      returns (calls: seq<Call>)
      modifies this
      ensures Step(Snapshot(), calls) == AfterDeposit(old(Snapshot()), tx, balanceReply, unlockTimeReply)
    {
      loading := true;
      error := "";
      calls := [DepositCall(DepositDays(duration), amount)];
      match tx {
        case Failed(reason) =>
          error := ErrorText(reason, DepositFailed);
        case Confirmed =>
          var loadCalls := LoadContractData(balanceReply, unlockTimeReply);
          calls := calls + loadCalls;
          amount := "";
          duration := "";
      }
      loading := false;
    }

    method HandleWithdraw(tx: TxReply, balanceReply: ReadReply, unlockTimeReply: ReadReply)
      returns (calls: seq<Call>)
      modifies this
      ensures Step(Snapshot(), calls) == AfterWithdraw(old(Snapshot()), tx, balanceReply, unlockTimeReply)
    {
      loading := true;
      error := "";
      calls := [WithdrawCall];
      match tx {
        case Failed(reason) =>
          error := ErrorText(reason, WithdrawFailed);
        case Confirmed =>
          var loadCalls := LoadContractData(balanceReply, unlockTimeReply);
          calls := calls + loadCalls;
      }
      loading := false;
    }

    /** One run of `calculateTimeLeft` from the countdown effect (at mount of the timer or a tick). */
    method Tick(nowMillis: nat)
      modifies this
      ensures Snapshot() == AfterTick(old(Snapshot()), nowMillis)
    {
      if unlockTime == 0 {
        return;
      }
      var now := nowMillis / 1000;
      var difference := unlockTime - now;
      if difference <= 0 {
        timeLeft := UnlockReached;
        return;
      }
      var days := difference / SecondsPerDay;
      var hours := (difference % SecondsPerDay) / SecondsPerHour;
      var minutes := (difference % SecondsPerHour) / SecondsPerMinute;
      var seconds := difference % SecondsPerMinute;
      timeLeft := CountdownText(Remaining(days, hours, minutes, seconds));
    }
  }
}
