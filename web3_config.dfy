/**
 * The wallet and network checks the frontend runs before it talks to the
 * contract: `getEthereumProvider`, `connectWallet` and `getContractInstance`.
 * Each is a function from the wallet's replies to an outcome (success, or
 * the error that is thrown) together with the ordered list of requests
 * issued to the wallet.
 */
module Web3Config {
  import opened Outcome

  /** The value `window.ethereum` holds when it is read. */
  datatype Injected =
    | Undefined
      /** `null`: its `typeof` is "object", but it is falsy. */
    | Null
      /** Another falsy value (`false`, `0`, `""`). */
    | OtherFalsy
      /** An injected wallet object. */
    | Wallet

  predicate IsTruthy(v: Injected) {
    v == Wallet
  }

  /** The chain id of Sepolia, as `eth_chainId` reports it. */
  const SepoliaChainId := "0xaa36a7"

  /** The wallet's code for "this chain has not been added". */
  const UnrecognizedChain := 4902

  /** The chain description sent with `wallet_addEthereumChain`. */
  datatype ChainParams = ChainParams(
    chainId: string, chainName: string,
    currencyName: string, currencySymbol: string, decimals: nat,
    rpcUrls: seq<string>, blockExplorerUrls: seq<string>)

  const SepoliaParams := ChainParams(
    SepoliaChainId, "Sepolia", "SepoliaETH", "ETH", 18,
    ["https://sepolia.infura.io/v3/"], ["https://sepolia.etherscan.io"])

  /** A request issued to the wallet. */
  datatype Request =
    | ChainIdRequest
    | SwitchChainRequest(chainId: string)
    | AddChainRequest(params: ChainParams)
    | AccountsRequest
    | SignerRequest

  /** The error object a wallet request rejects with. */
  datatype RpcError = RpcError(code: int, message: string)

  /** What the functions throw: their own `Error(message)`, or a wallet error passed on unchanged. */
  datatype Failure = Thrown(message: string) | Rejected(error: RpcError)

  const InstallMetaMask := "Please install MetaMask"
  const NoAccountsFound := "No accounts found"
  const ProviderInitFailed := "Provider initialization failed"

  /** A signer, known here by the address it signs for. */
  type Signer = string

  /** A contract instance bound to a signer. */
  datatype Contract = Contract(address: string, signer: Signer)

  /**
   * Everything the wallet answers. `ethereum` is `window.ethereum` at the
   * MetaMask check; `ethereumAtProvider` is its value when
   * `getEthereumProvider` reads it again. `accounts` is `None` for a
   * `null`/`undefined` reply.
   */
  datatype WalletEnv = WalletEnv(
    hasWindow: bool,
    ethereum: Injected,
    chainId: Result<string, RpcError>,
    switchChain: Result<(), RpcError>,
    addChain: Result<(), RpcError>,
    accounts: Result<Option<seq<string>>, RpcError>,
    ethereumAtProvider: Injected,
    signer: Result<Signer, RpcError>)

  /** The outcome of a run and the requests it issued, in order. */
  datatype Run<T> = Run(outcome: Result<T, Failure>, trace: seq<Request>)

  /** `getEthereumProvider()`: a provider exactly when `window` and `window.ethereum` are defined. */
  function GetEthereumProvider(hasWindow: bool, ethereum: Injected): (provider: Option<Injected>)
    ensures provider.None? <==> !hasWindow || ethereum == Undefined
    ensures provider.Some? ==> provider.value == ethereum
  {
    if hasWindow && ethereum != Undefined then Some(ethereum) else None
  }

  /** The guard both entry points open with: `typeof window === 'undefined' || !window.ethereum`. */
  predicate MetaMaskDetected(env: WalletEnv) {
    env.hasWindow && IsTruthy(env.ethereum)
  }

  /** Whether an accounts reply passes `!accounts || accounts.length === 0`. */
  predicate HasAccounts(accounts: Option<seq<string>>) {
    accounts.Some? && |accounts.value| > 0
  }

  /** Lines 19-47 of `connectWallet`: read the chain, and switch (or add) Sepolia when it differs. */
  function SelectSepolia(env: WalletEnv): (run: Run<()>)
    ensures |run.trace| >= 1 && run.trace[0] == ChainIdRequest
    ensures forall i :: 1 <= i < |run.trace| ==> run.trace[i] != ChainIdRequest
    // The network step succeeds exactly when the wallet is on Sepolia, or is
    // switched there, or has Sepolia added after refusing the switch with 4902.
    ensures run.outcome.Ok? <==>
              env.chainId.Ok?
              && (env.chainId.value == SepoliaChainId || env.switchChain.Ok?
                  || (env.switchChain.error.code == UnrecognizedChain && env.addChain.Ok?))
    ensures env.chainId.Err? ==> run == Run(Err(Rejected(env.chainId.error)), [ChainIdRequest])
    ensures env.chainId == Ok(SepoliaChainId) ==> run == Run(Ok(()), [ChainIdRequest])
    ensures env.chainId.Ok? && env.chainId.value != SepoliaChainId && env.switchChain.Ok?
            ==> run == Run(Ok(()), [ChainIdRequest, SwitchChainRequest(SepoliaChainId)])
    ensures env.chainId.Ok? && env.chainId.value != SepoliaChainId && env.switchChain.Err?
            && env.switchChain.error.code == UnrecognizedChain
            ==> run.trace == [ChainIdRequest, SwitchChainRequest(SepoliaChainId), AddChainRequest(SepoliaParams)]
                && (env.addChain.Err? ==> run.outcome == Err(Rejected(env.addChain.error)))
    ensures env.chainId.Ok? && env.chainId.value != SepoliaChainId && env.switchChain.Err?
            && env.switchChain.error.code != UnrecognizedChain
            ==> run == Run(Err(Rejected(env.switchChain.error)), [ChainIdRequest, SwitchChainRequest(SepoliaChainId)])
  {
    match env.chainId
    case Err(e) => Run(Err(Rejected(e)), [ChainIdRequest])
    case Ok(id) =>
      if id == SepoliaChainId then Run(Ok(()), [ChainIdRequest])
      else
        var switched := [ChainIdRequest, SwitchChainRequest(SepoliaChainId)];
        match env.switchChain
        case Ok(_) => Run(Ok(()), switched)
        case Err(e) =>
          if e.code == UnrecognizedChain then
            match env.addChain
            case Ok(_) => Run(Ok(()), switched + [AddChainRequest(SepoliaParams)])
            case Err(e2) => Run(Err(Rejected(e2)), switched + [AddChainRequest(SepoliaParams)])
          else Run(Err(Rejected(e)), switched)
  }

  /** `connectWallet()`: network selection, then accounts, then provider, then signer. */
  function ConnectWallet(env: WalletEnv): (run: Run<Signer>)
    ensures !MetaMaskDetected(env) ==> run == Run(Err(Thrown(InstallMetaMask)), [])
    ensures MetaMaskDetected(env) ==> |run.trace| >= 1 && run.trace[0] == ChainIdRequest
    ensures run.outcome.Ok? ==> env.signer == Ok(run.outcome.value)
                                && |run.trace| >= 2 && run.trace[|run.trace| - 1] == SignerRequest
                                && run.trace[|run.trace| - 2] == AccountsRequest
    ensures run.outcome == Err(Thrown(NoAccountsFound))
            ==> env.accounts.Ok? && !HasAccounts(env.accounts.value) && run.trace[|run.trace| - 1] == AccountsRequest
    ensures run.outcome == Err(Thrown(ProviderInitFailed))
            ==> env.accounts.Ok? && HasAccounts(env.accounts.value) && env.ethereumAtProvider == Undefined
    // A failed network step is rethrown as it is, before accounts are requested.
    ensures MetaMaskDetected(env) && SelectSepolia(env).outcome.Err?
            ==> run == Run(Err(SelectSepolia(env).outcome.error), SelectSepolia(env).trace)
    // After a successful network step: accounts, then the provider check, then the signer.
    ensures MetaMaskDetected(env) && SelectSepolia(env).outcome.Ok? && env.accounts.Err?
            ==> run == Run(Err(Rejected(env.accounts.error)), SelectSepolia(env).trace + [AccountsRequest])
    ensures MetaMaskDetected(env) && SelectSepolia(env).outcome.Ok?
            && env.accounts.Ok? && !HasAccounts(env.accounts.value)
            ==> run == Run(Err(Thrown(NoAccountsFound)), SelectSepolia(env).trace + [AccountsRequest])
    ensures MetaMaskDetected(env) && SelectSepolia(env).outcome.Ok?
            && env.accounts.Ok? && HasAccounts(env.accounts.value) && env.ethereumAtProvider == Undefined
            ==> run == Run(Err(Thrown(ProviderInitFailed)), SelectSepolia(env).trace + [AccountsRequest])
    ensures MetaMaskDetected(env) && SelectSepolia(env).outcome.Ok?
            && env.accounts.Ok? && HasAccounts(env.accounts.value) && env.ethereumAtProvider != Undefined
            ==> run.trace == SelectSepolia(env).trace + [AccountsRequest, SignerRequest]
                && (env.signer.Ok? ==> run.outcome == Ok(env.signer.value))
                && (env.signer.Err? ==> run.outcome == Err(Rejected(env.signer.error)))
    // It succeeds exactly when every step does.
    ensures run.outcome.Ok? <==>
              MetaMaskDetected(env) && SelectSepolia(env).outcome.Ok? && env.accounts.Ok?
              && HasAccounts(env.accounts.value) && env.ethereumAtProvider != Undefined && env.signer.Ok?
  {
    if !MetaMaskDetected(env) then Run(Err(Thrown(InstallMetaMask)), [])
    else
      var network := SelectSepolia(env);
      if network.outcome.Err? then Run(Err(network.outcome.error), network.trace)
      else
        var trace := network.trace + [AccountsRequest];
        match env.accounts
        case Err(e) => Run(Err(Rejected(e)), trace)
        case Ok(accounts) =>
          if !HasAccounts(accounts) then Run(Err(Thrown(NoAccountsFound)), trace)
          else if GetEthereumProvider(env.hasWindow, env.ethereumAtProvider).None? then
            Run(Err(Thrown(ProviderInitFailed)), trace)
          else
            match env.signer
            case Err(e) => Run(Err(Rejected(e)), trace + [SignerRequest])
            case Ok(signer) => Run(Ok(signer), trace + [SignerRequest])
  }

  /** `getContractInstance(address, abi)`: provider first, then accounts, then signer. */
  function GetContractInstance(env: WalletEnv, address: string): (run: Run<Contract>)
    ensures !MetaMaskDetected(env) ==> run == Run(Err(Thrown(InstallMetaMask)), [])
    ensures run.outcome == Err(Thrown(ProviderInitFailed)) <==> MetaMaskDetected(env) && env.ethereumAtProvider == Undefined
    ensures run.outcome == Err(Thrown(ProviderInitFailed)) ==> run.trace == []
    ensures ChainIdRequest !in run.trace
    ensures run.outcome.Ok? ==> env.signer.Ok? && run.outcome.value == Contract(address, env.signer.value)
                                && run.trace == [AccountsRequest, SignerRequest]
    // With a provider: accounts, then the signer.
    ensures MetaMaskDetected(env) && env.ethereumAtProvider != Undefined && env.accounts.Err?
            ==> run == Run(Err(Rejected(env.accounts.error)), [AccountsRequest])
    ensures MetaMaskDetected(env) && env.ethereumAtProvider != Undefined
            && env.accounts.Ok? && !HasAccounts(env.accounts.value)
            ==> run == Run(Err(Thrown(NoAccountsFound)), [AccountsRequest])
    ensures MetaMaskDetected(env) && env.ethereumAtProvider != Undefined
            && env.accounts.Ok? && HasAccounts(env.accounts.value)
            ==> run.trace == [AccountsRequest, SignerRequest]
                && (env.signer.Ok? ==> run.outcome == Ok(Contract(address, env.signer.value)))
                && (env.signer.Err? ==> run.outcome == Err(Rejected(env.signer.error)))
    // It succeeds exactly when every step does.
    ensures run.outcome.Ok? <==>
              MetaMaskDetected(env) && env.ethereumAtProvider != Undefined && env.accounts.Ok?
              && HasAccounts(env.accounts.value) && env.signer.Ok?
  {
    if !MetaMaskDetected(env) then Run(Err(Thrown(InstallMetaMask)), [])
    else if GetEthereumProvider(env.hasWindow, env.ethereumAtProvider).None? then
      Run(Err(Thrown(ProviderInitFailed)), [])
    else
      match env.accounts
      case Err(e) => Run(Err(Rejected(e)), [AccountsRequest])
      case Ok(accounts) =>
        if !HasAccounts(accounts) then Run(Err(Thrown(NoAccountsFound)), [AccountsRequest])
        else
          match env.signer
          case Err(e) => Run(Err(Rejected(e)), [AccountsRequest, SignerRequest])
          case Ok(signer) => Run(Ok(Contract(address, signer)), [AccountsRequest, SignerRequest])
  }

  /** On Sepolia already, `connectWallet` neither switches nor adds a chain. */
  lemma OnSepoliaNoSwitch(env: WalletEnv)
    requires MetaMaskDetected(env) && env.chainId == Ok(SepoliaChainId)
    ensures forall r :: r in ConnectWallet(env).trace ==> !r.SwitchChainRequest? && !r.AddChainRequest?
  {
  }

  /**
   * A switch refused with 4902 falls back to adding Sepolia; once added, the
   * flow asks for accounts straight away, without reading the chain again.
   */
  lemma UnknownChainIsAdded(env: WalletEnv, e: RpcError)
    requires MetaMaskDetected(env) && env.chainId.Ok? && env.chainId.value != SepoliaChainId
    requires env.switchChain == Err(e) && e.code == UnrecognizedChain && env.addChain.Ok?
    ensures var trace := ConnectWallet(env).trace;
            |trace| >= 4
            && trace[..4] == [ChainIdRequest, SwitchChainRequest(SepoliaChainId),
                              AddChainRequest(SepoliaParams), AccountsRequest]
  {
  }

  /** A successful switch goes straight on to the accounts request, without adding a chain. */
  lemma SwitchedChainContinues(env: WalletEnv)
    requires MetaMaskDetected(env) && env.chainId.Ok? && env.chainId.value != SepoliaChainId
    requires env.switchChain.Ok?
    ensures var trace := ConnectWallet(env).trace;
            |trace| >= 3
            && trace[..3] == [ChainIdRequest, SwitchChainRequest(SepoliaChainId), AccountsRequest]
  {
  }

  /** When adding Sepolia fails, that error is rethrown and no accounts are requested. */
  lemma AddChainErrorPropagates(env: WalletEnv, e: RpcError)
    requires MetaMaskDetected(env) && env.chainId.Ok? && env.chainId.value != SepoliaChainId
    requires env.switchChain.Err? && env.switchChain.error.code == UnrecognizedChain
    requires env.addChain == Err(e)
    ensures ConnectWallet(env) == Run(Err(Rejected(e)),
              [ChainIdRequest, SwitchChainRequest(SepoliaChainId), AddChainRequest(SepoliaParams)])
  {
  }

  /** A switch refused with any other code is rethrown as it is, and no accounts are requested. */
  lemma SwitchErrorPropagates(env: WalletEnv, e: RpcError)
    requires MetaMaskDetected(env) && env.chainId.Ok? && env.chainId.value != SepoliaChainId
    requires env.switchChain == Err(e) && e.code != UnrecognizedChain
    ensures ConnectWallet(env) == Run(Err(Rejected(e)), [ChainIdRequest, SwitchChainRequest(SepoliaChainId)])
  {
  }

  /**
   * The two entry points order their checks differently: with no accounts
   * and no provider, `connectWallet` reports the accounts while
   * `getContractInstance` reports the provider before asking for accounts.
   */
  lemma ProviderCheckOrder(env: WalletEnv, address: string)
    requires MetaMaskDetected(env) && env.chainId == Ok(SepoliaChainId)
    requires env.accounts == Ok(Some([])) && env.ethereumAtProvider == Undefined
    ensures ConnectWallet(env).outcome == Err(Thrown(NoAccountsFound))
    ensures GetContractInstance(env, address) == Run(Err(Thrown(ProviderInitFailed)), [])
  {
  }

  /**
   * When `window.ethereum` does not change between the two reads, the
   * provider check can never fail: the MetaMask check already rejected an
   * undefined wallet.
   */
  lemma StableWalletHasProvider(env: WalletEnv, address: string)
    requires env.ethereumAtProvider == env.ethereum
    ensures ConnectWallet(env).outcome != Err(Thrown(ProviderInitFailed))
    ensures GetContractInstance(env, address).outcome != Err(Thrown(ProviderInitFailed))
  {
  }
}
