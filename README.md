# Time-locked ETH deposits: ledger, sync controller and wallet checks

This project models the core of a small dApp in which an account deposits
ether that can be withdrawn only once a lock period, chosen in days, has
elapsed. It covers four pieces.

- **The `Lock` ledger** (`lock_ledger.dfy`, module `LockLedger`). Each account
  has a record `{balance, unlockTime}`. The first deposit of a cycle fixes
  `unlockTime = now + days * 86400`. Top-ups add to the balance and leave the
  unlock time alone. A withdrawal pays out the whole balance once
  `now >= unlockTime` and returns the account to `{0, 0}`. The contract's
  Solidity text is not part of this model: its behaviour is taken from the
  assertions of its test suite. The contract is the class `Lock`. Its field
  `accounts` is a map from address to record. Its field `held` is the ether
  the contract holds, kept equal to the sum of all balances. `Deposit` and
  `Withdraw` update both in place, with the block time passed in as `now`.
  Pure functions (`DepositOn`, `WithdrawOn`, `ApplyDeposit`, `ApplyWithdraw`)
  state the rules, and lemmas prove the cycle properties about them.
- **The client sync controller** (`lock_context.dfy`, module `LockContext`).
  The React provider's state is the class `LockProvider`, with one field per
  `useState`. Its handlers update those fields in the source's order.
  Every awaited call (`connectWallet`, `deposit`, `withdraw`, `getBalance`,
  `getUnlockTime`) is an input: its reply, or its rejection with an optional
  `reason`. Each handler is specified by a pure function (`AfterLoad`,
  `AfterConnect`, `AfterDeposit`, `AfterWithdraw`, `AfterTick`). That
  function gives the new state and the ordered list of calls issued. The
  countdown is `CalculateTimeLeft(unlockTime, nowMillis)`.
- **The wallet/network checks** (`web3_config.dfy`, module `Web3Config`).
  `connectWallet` and `getContractInstance` are functions from the wallet's
  replies to an outcome plus the ordered trace of wallet requests. The
  outcome is a signer or contract, or the error thrown.
- **The address display helpers** (`navbar.dfy`, module `Navbar`). These are
  written over a model of JavaScript's `slice` with its negative indices and
  clamping. `decimal.dfy` holds JavaScript's `Number(s)` for digit strings
  and `String(n)` for non-negative integers. `outcome.dfy` holds `Option`
  and `Result`.

Modelling decisions:

- **Withdraw boundary.** Withdrawal is allowed when `now >= unlockTime`. The
  tests advance time by exactly the lock period, but block-time drift means
  they do not tell `>=` from `>`.
- **Reset after withdraw.** A withdrawal resets the account to `{0, 0}`.
  Only the frontend's 0 sentinel implies this.
- **Check order in `deposit`.** A zero value is rejected before a zero
  duration, so `deposit(0, value: 0)` reports "Must deposit some amount".
- **Zero-day top-ups.** A zero duration is rejected only when the balance is
  0, so a 0-day top-up is accepted. The tests pin neither choice.
- **Deposit after expiry.** A deposit made after the unlock time has passed,
  but before a withdrawal, does not re-lock: any deposit while the balance
  is positive is a top-up.
- **Amounts in wei.** The frontend's balance is modelled as wei, not as the
  decimal ETH text `formatEther` produces, so its initial value is 0 rather
  than the string `'0'`.

## Model

| member | source | states |
|---|---|---|
| LockLedger.Reason | test/LockTest.ts:46-57 | every revert reports a non-empty string, so the frontend shows it instead of its fallback text. The strings are those the tests assert: "Must deposit some amount", "Lock duration must be greater than 0", "No funds to withdraw", "Funds are still locked" |
| LockLedger.DepositOn | test/LockTest.ts:14-95 | a zero value reverts with ZeroAmount. A zero duration on an empty account reverts with ZeroDuration. Otherwise the balance grows by the value. A first deposit sets `unlockTime = now + days*86400` and a top-up keeps the old unlock time. The invariant balance = 0 iff unlockTime = 0 is preserved |
| LockLedger.WithdrawOn | test/LockTest.ts:99-139 | NoFunds iff the balance is 0. StillLocked iff funded and `now < unlockTime`. Otherwise it succeeds and pays exactly the balance |
| LockLedger.ApplyDeposit | test/LockTest.ts:14-44 | a deposit transaction changes only the caller's record, and only as DepositOn says. It emits `Deposit(caller, amount, unlockTime)` with the unlock time now stored, and keeps every record well formed |
| LockLedger.ApplyWithdraw | test/LockTest.ts:107-139 | a withdrawal empties the caller's record and emits `Withdrawal(caller, balance)`. Other accounts are untouched. Errors are those of WithdrawOn |
| LockLedger.TotalUpdate | test/LockTest.ts:117-121 | replacing one record changes the sum of balances by exactly the difference between the new and old balances. This is why the contract's ether moves by exactly the amount deposited or paid out |
| LockLedger.TopUpsAccumulate | test/LockTest.ts:59-95 | any run of non-zero top-ups into a funded account ends with the old balance plus the sum of the amounts, under the unchanged unlock time |
| LockLedger.DepositsAccumulate | test/LockTest.ts:59-95 | from an empty account, a run of deposits whose first has days > 0 ends with the sum of all amounts, locked until the time the first deposit fixed |
| LockLedger.WithdrawStartsNewCycle | test/LockTest.ts:107-122 | after a successful withdrawal, the next deposit with days > 0 is a first deposit again: it sets a fresh unlock time from its own `now` |
| LockLedger.Lock.constructor | test/LockTest.ts:6-11 | a fresh deployment has no records and holds no ether |
| LockLedger.Lock.GetBalance | test/LockTest.ts:142-156 | an account that never deposited reads 0, whatever others deposited. Any balance is at most the ether the contract holds |
| LockLedger.Lock.GetUnlockTime | frontend/src/utils/lockContract.ts:12 | unknown accounts read 0. The unlock time is 0 exactly when the balance is 0 |
| LockLedger.Lock.Deposit | test/LockTest.ts:14-95 | the record map and held ether change exactly as ApplyDeposit says; a revert changes nothing. The ether held stays equal to the sum of balances |
| LockLedger.Lock.Withdraw | test/LockTest.ts:99-139 | the record map and held ether change exactly as ApplyWithdraw says. The contract's ether drops by the amount paid to the caller. The ether held stays equal to the sum of balances |
| Decimal.ToDecimal | frontend/src/context/LockContext.tsx:115 | `${n}` renders a non-empty digit string with no leading zero |
| Decimal.NumberOf | frontend/src/context/LockContext.tsx:64 | `Number("")` is 0. A digit string yields an integer. Anything else is kept as unparsed text |
| Decimal.ValueOfToDecimal | frontend/src/context/LockContext.tsx:115 | reading back the digits `${n}` renders gives n |
| Decimal.NumberOfToDecimal | frontend/src/context/LockContext.tsx:64 | `Number(String(n)) == n` for every non-negative integer, with numbers read as exact naturals (see Decimal.NumberOf under Left out) |
| LockContext.ErrorText | frontend/src/context/LockContext.tsx:71 | the error shown is `error.reason` or else the fallback: a present non-empty reason wins; an absent or empty one gives the fallback |
| LockContext.AfterLoad | frontend/src/context/LockContext.tsx:37-46 | only `balance` and `unlockTime` can change, and `error` is untouched. Both change to the replies when both reads succeed; otherwise nothing changes. `getUnlockTime` is issued only after `getBalance` succeeded |
| LockContext.AfterConnect | frontend/src/context/LockContext.tsx:48-57 | on a connect failure only `error` changes, to "Failed to connect wallet", and no refresh is issued. On success `connected` is set before the refresh, and `error` is not cleared |
| LockContext.DepositDays | frontend/src/context/LockContext.tsx:64 | an empty duration field sends 1 day; otherwise `Number(duration)` |
| LockContext.AfterDeposit | frontend/src/context/LockContext.tsx:59-74 | ends with `loading` false. Sends `deposit(days, amount)` first. On success the error is "" and the form is cleared, with balance and unlock time as the refresh gives them. On failure only `error` (the reason, or "Error depositing funds") and `loading` change, and no refresh is issued |
| LockContext.AfterWithdraw | frontend/src/context/LockContext.tsx:76-87 | ends with `loading` false, the form kept. On success the error is "" and the refresh follows. On failure the error is the reason or "Error withdrawing funds", and no refresh is issued |
| LockContext.CalculateTimeLeft | frontend/src/context/LockContext.tsx:101-116 | Reached iff `unlockTime - floor(now/1000) <= 0`. Otherwise the split has `hours < 24`, `minutes < 60`, `seconds < 60`, and `days*86400 + hours*3600 + minutes*60 + seconds` equals the difference |
| LockContext.SplitDifference | frontend/src/context/LockContext.tsx:110-113 | the four quotient/remainder expressions of the countdown are normalized and add back up to the difference |
| LockContext.CountdownUnique | frontend/src/context/LockContext.tsx:110-113 | any normalized split of the remaining time is the one `calculateTimeLeft` computes |
| LockContext.CountdownText | frontend/src/context/LockContext.tsx:105-115 | the text is "Unlock time reached" exactly when the unlock time is reached: no remaining time renders as the sentinel |
| LockContext.AfterTick | frontend/src/context/LockContext.tsx:98-122 | with `unlockTime == 0` nothing changes, so `timeLeft` keeps its previous value. Otherwise only `timeLeft` changes: "Unlock time reached" once the time has come, else the normalized split of the remaining seconds |
| LockContext.FormatDate | frontend/src/context/LockContext.tsx:89-92 | `formatDate(0)` is "No active lock". Any other timestamp is rendered from `timestamp * 1000` milliseconds |
| LockContext.LoadNeverHalfUpdates | frontend/src/context/LockContext.tsx:37-46 | after a refresh, (balance, unlockTime) is either the old pair or the pair just read, and `error` is unchanged |
| LockContext.DepositClearsFormDespiteRefreshFailure | frontend/src/context/LockContext.tsx:63-68 | a confirmed deposit whose refresh fails still clears `amount`, `duration` and `error`, and keeps the old balance and unlock time |
| LockContext.DepositViewMatchesLedger | frontend/src/context/LockContext.tsx:65-66 | after a deposit the ledger accepted, a refresh that reads the ledger shows the caller's record. That record is the old balance plus the value |
| LockContext.WithdrawRevertShown | frontend/src/context/LockContext.tsx:82-85 | a withdrawal the ledger refuses, reported with its revert string as `reason`, shows that string as the error |
| LockContext.ConnectWithoutWallet | frontend/src/context/LockContext.tsx:48-57 | when `connectWallet` fails for lack of MetaMask, `connected` is unchanged, the error is "Failed to connect wallet", and no contract read is issued |
| LockContext.LockProvider.constructor | frontend/src/context/LockContext.tsx:28-35 | the state starts at the `useState` initial values |
| LockContext.LockProvider.SetAmount | frontend/src/context/LockContext.tsx:28 | only `amount` changes |
| LockContext.LockProvider.SetDuration | frontend/src/context/LockContext.tsx:29 | only `duration` changes |
| LockContext.LockProvider.LoadContractData | frontend/src/context/LockContext.tsx:37-46 | the fields and the calls issued are exactly those of AfterLoad |
| LockContext.LockProvider.HandleConnect | frontend/src/context/LockContext.tsx:48-57 | the fields and the calls issued are exactly those of AfterConnect |
| LockContext.LockProvider.HandleDeposit | frontend/src/context/LockContext.tsx:59-74 | the fields and the calls issued are exactly those of AfterDeposit |
| LockContext.LockProvider.HandleWithdraw | frontend/src/context/LockContext.tsx:76-87 | the fields and the calls issued are exactly those of AfterWithdraw |
| LockContext.LockProvider.Tick | frontend/src/context/LockContext.tsx:99-118 | the fields are exactly those of AfterTick |
| Web3Config.GetEthereumProvider | frontend/src/utils/web3Config.ts:3-8 | null exactly when `window` or `window.ethereum` is undefined, as the `typeof` test decides; otherwise the provider wraps the value read. The `BrowserProvider` constructor is taken as a plain wrapper, so whether it would reject a `null` wallet is not modelled |
| Web3Config.SelectSepolia | frontend/src/utils/web3Config.ts:18-47 | the chain id is read once, first. The step succeeds exactly when the wallet is on Sepolia, or the switch succeeds, or the switch is refused with 4902 and adding Sepolia succeeds. On Sepolia nothing else is requested; a successful switch ends after the switch request; a 4902 refusal adds the Sepolia parameters and rethrows an add-chain error; any other switch error, or a failed chain-id read, is rethrown unchanged |
| Web3Config.ConnectWallet | frontend/src/utils/web3Config.ts:10-71 | without MetaMask it fails with "Please install MetaMask" and issues no request. Otherwise it opens with the chain-id request. "No accounts found" comes from a null or empty accounts reply, right after the accounts request. "Provider initialization failed" comes only after accounts were found. A failed network step is rethrown before accounts are requested. After a successful network step, an empty or null accounts reply gives "No accounts found" and a rejected one is rethrown; with accounts and a provider the signer request follows. It succeeds, returning the wallet's signer, exactly when MetaMask is present, the network step succeeds, accounts are returned, the provider exists and the signer is given |
| Web3Config.GetContractInstance | frontend/src/utils/web3Config.ts:73-98 | without MetaMask it fails with "Please install MetaMask" and issues no request. The provider failure happens iff the second read of `window.ethereum` is undefined, and then before any request. The chain is never read. With a provider, an empty or null accounts reply gives "No accounts found" after the accounts request alone. It succeeds exactly when MetaMask is present, the provider exists, accounts are returned and the signer is given, and then binds the contract to that signer after exactly the accounts and signer requests |
| Web3Config.OnSepoliaNoSwitch | frontend/src/utils/web3Config.ts:19-20 | on chain `0xaa36a7` no switch or add-chain request is issued |
| Web3Config.UnknownChainIsAdded | frontend/src/utils/web3Config.ts:21-50 | a switch refused with 4902 is followed by add-chain with the Sepolia parameters and then, without re-reading the chain, the accounts request |
| Web3Config.SwitchedChainContinues | frontend/src/utils/web3Config.ts:20-50 | a successful switch is followed directly by the accounts request, with no add-chain request |
| Web3Config.AddChainErrorPropagates | frontend/src/utils/web3Config.ts:28-46 | when adding Sepolia fails, that error is rethrown unchanged after the chain-id, switch and add-chain requests, and no accounts are requested |
| Web3Config.SwitchErrorPropagates | frontend/src/utils/web3Config.ts:26-46 | a switch refused with any other code is rethrown unchanged after exactly the chain-id and switch requests, and no accounts request follows |
| Web3Config.ProviderCheckOrder | frontend/src/utils/web3Config.ts:50-87 | with no accounts and no provider, `connectWallet` reports "No accounts found" (accounts checked first) while `getContractInstance` reports "Provider initialization failed" with no request issued (provider checked first) |
| Web3Config.StableWalletHasProvider | frontend/src/utils/web3Config.ts:13-62 | when `window.ethereum` does not change between its two reads, neither function can fail with "Provider initialization failed" |
| Navbar.SliceIndex | frontend/src/app/components/Navbar.tsx:11 | a `slice` argument becomes a position in `[0, len]`. Non-negative arguments are clamped to the length; negative ones count from the end, clamped at 0 |
| Navbar.Slice | frontend/src/app/components/Navbar.tsx:11 | the result has length `max(0, end' - start')` and holds the characters from the clamped start on |
| Navbar.SliceFrom | frontend/src/app/components/Navbar.tsx:11 | `s.slice(start)` is the suffix from the clamped start |
| Navbar.ToUpperCase | frontend/src/app/components/Navbar.tsx:16 | same length, every character upper-cased in place |
| Navbar.ToUpperCaseIdempotent | frontend/src/app/components/Navbar.tsx:16 | upper-casing twice is upper-casing once |
| Navbar.TruncateAddress | frontend/src/app/components/Navbar.tsx:9-12 | "" stays "". From 10 characters on: first 6, "...", last 4, 13 characters in all. In general, at most the first 6, "...", then the last 4 or the whole string when shorter, so an address of 1 to 4 characters appears twice |
| Navbar.GetAddressLetters | frontend/src/app/components/Navbar.tsx:14-17 | at most 2 characters, empty when the address has at most 2. Otherwise the upper-cased characters at indices 2 and 3 that exist |
| Navbar.DisplayBalance | frontend/src/app/components/Navbar.tsx:42 | the displayed balance is the first (at most) 10 characters of its text |

## Left out

- The Solidity source of `Lock`. It is not part of this model. The ledger follows its test suite, with the choices listed above.
- LockLedger.DepositOn: does not model uint256 overflow of the balance or of `now + days * 86400`. The contract would revert there; the model's integers are unbounded.
- LockLedger.WithdrawOn: does not model a failing ether transfer to the caller or re-entrancy during it.
- Gas, transaction receipts, event-log decoding and the `time.increase` helper of the tests. Block time is the `now` parameter.
- `parseEther`/`formatEther` in `frontend/src/utils/lockContract.ts`. Amounts are wei naturals. The `amount` form text is passed through to the deposit call unchanged.
- The thin wrappers of `frontend/src/utils/lockContract.ts`, including their `window === 'undefined'` early returns. Each wrapper is one reply input of the controller.
- LockContext.DepositDays: `Number(duration)` reads a non-empty digit string as its value (within the bound under Decimal.NumberOf). Other text (fractions, signs, exponents, white space, `NaN`) is passed on as unparsed text.
- Decimal.NumberOf: JavaScript numbers are IEEE doubles, while the model reads digit strings as exact naturals. This is faithful only up to `Number.MAX_SAFE_INTEGER` (2^53 - 1); above it `Number` rounds ("9007199254740993" gives 9007199254740992), and the model does not.
- Decimal.ToDecimal: `${n}` prints plain digits only below 10^21; from there on JavaScript uses exponent form (`1e+21`), which the model does not. The countdown's day count stays far below that bound for any realistic unlock time.
- LockContext.FormatDate: `toLocaleString` is library code and is taken as a function parameter.
- `Date.now()` is the `nowMillis` parameter. The `setInterval`/`clearInterval` timer lifecycle is left out: `Tick` is one run of `calculateTimeLeft`, with no schedule.
- The intermediate renders while a handler awaits (for example `loading == true` during the deposit). Only the state after each handler completes is modelled. Concurrent handlers are left out too.
- `console.log`/`console.error` and `e.preventDefault()`.
- Account-change and chain-change listeners. The source registers none.
- Navbar.ToUpperCase: only ASCII letters are mapped. Full Unicode case mapping (which can change length) is left out; addresses are hexadecimal.
- `walletBalance` is not provided by the context (the source reads a field the context type does not declare). `DisplayBalance` models only the `slice(0, 10)` applied to whatever text is shown.
- The `useEffect` in `Navbar.tsx` that reads `window.ethereum.selectedAddress`.
- The JSX of `page.tsx`, `LockInterface.tsx` and `Navbar.tsx`, including their visibility predicates.
- `ethers.BrowserProvider`, `getSigner` and `ethers.Contract` are wallet replies or plain values. The signer is known by its address.
