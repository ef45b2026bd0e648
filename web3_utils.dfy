/** The network guard: the Sepolia chain id the application requires, the
    check that the wallet is on it, and the switch to it, which asks the
    wallet to add the chain when it does not know it (the
    `wallet_switchEthereumChain` / `wallet_addEthereumChain` convention of
    EIP-3326 and EIP-3085, where error code 4902 means "unrecognized chain").
    Each operation is a function of the wallet's answers and returns the
    requests it sent together with its result. */
module Web3Utils {
  import opened Common

  /** Sepolia's chain id, in the hexadecimal form the wallet reports. */
  const RequiredChainId: string := "0xaa36a7"

  /** The wallet's error code for a chain it does not know. */
  const UnrecognizedChain: int := 4902

  datatype NativeCurrency = NativeCurrency(name: string, symbol: string, decimals: nat)

  /** The descriptor sent with `wallet_addEthereumChain`. */
  datatype ChainParams = ChainParams(
    chainId: string,
    chainName: string,
    nativeCurrency: NativeCurrency,
    rpcUrls: seq<string>,
    blockExplorerUrls: seq<string>)

  const SepoliaParams: ChainParams := ChainParams(
    RequiredChainId,
    "Sepolia",
    NativeCurrency("ETH", "ETH", 18),
    ["https://sepolia.infura.io/v3/"],
    ["https://sepolia.etherscan.io"])

  /** The requests this client sends to the injected wallet. */
  datatype WalletRequest =
    | ChainIdQuery                  // eth_chainId
    | SwitchChain(chainId: string)  // wallet_switchEthereumChain
    | AddChain(params: ChainParams) // wallet_addEthereumChain
    | RequestAccounts               // eth_requestAccounts

  /** The injected wallet (`window.ethereum`): whether it is there at all,
      and how it answers each request. */
  datatype Wallet = Wallet(
    present: bool,
    switchReply: Result<()>,
    addReply: Result<()>,
    chainIdReply: Result<string>,
    accountsReply: Result<seq<Address>>)

  /** What an operation of the guard did: the requests it sent, in order,
      and what it returned or threw. */
  datatype Step<+T> = Step(issued: seq<WalletRequest>, result: Result<T>)

  /** The wallet refused the switch because it does not know the chain. */
  predicate UnknownChainRefusal(reply: Result<()>)
  {
    reply.Fail? && reply.error.code == Some(UnrecognizedChain)
  }

  /** `checkNetwork`: is the wallet on the required chain? The comparison is
      exact string equality, so a differently written id does not pass. */
  function CheckNetwork(w: Wallet): (r: Step<bool>)
    ensures !w.present ==> r == Step([], Ok(false))
    ensures w.present ==> r.issued == [ChainIdQuery]
    ensures r.result == Ok(true) <==> w.present && w.chainIdReply == Ok(RequiredChainId)
    ensures r.result.Fail? <==> w.present && w.chainIdReply.Fail?
    ensures r.result.Fail? ==> r.result.error == w.chainIdReply.error
  {
    if !w.present then
      Step([], Ok(false))
    else
      match w.chainIdReply
      case Ok(id) => Step([ChainIdQuery], Ok(id == RequiredChainId))
      case Fail(e) => Step([ChainIdQuery], Fail(e))
  }

  /** `switchToSepoliaNetwork`: ask the wallet to switch; if it refuses with
      4902, ask it once to add the chain. Any other refusal is swallowed, the
      switch is not retried after the add, and only a failing add reaches
      the caller. Without a wallet, the call on the missing object throws a
      `TypeError` that carries no code, so that too is swallowed. */
  function SwitchToSepoliaNetwork(w: Wallet): (r: Step<()>)
    ensures !w.present ==> r == Step([], Ok(()))
    ensures w.present ==> |r.issued| > 0 && r.issued[0] == SwitchChain(RequiredChainId)
    ensures AddChain(SepoliaParams) in r.issued <==> w.present && UnknownChainRefusal(w.switchReply)
    ensures forall i :: 0 <= i < |r.issued| ==>
      r.issued[i] == (if i == 0 then SwitchChain(RequiredChainId) else AddChain(SepoliaParams))
    ensures |r.issued| <= 2
    ensures r.result.Fail? <==> w.present && UnknownChainRefusal(w.switchReply) && w.addReply.Fail?
    ensures r.result.Fail? ==> r.result.error == w.addReply.error
  {
    if !w.present then
      Step([], Ok(()))
    else if UnknownChainRefusal(w.switchReply) then
      Step([SwitchChain(RequiredChainId), AddChain(SepoliaParams)], w.addReply)
    else
      Step([SwitchChain(RequiredChainId)], Ok(()))
  }

  /** The browser provider wrapped around the injected wallet. */
  datatype Provider = BrowserProvider

  /** What `getProvider` throws when there is no wallet. */
  const MetaMaskNotFound: Thrown := Thrown(None, "Error: MetaMask not found")

  /** `getProvider`: fails exactly when no wallet is injected. */
  function GetProvider(present: bool): (r: Result<Provider>)
    ensures r.Fail? <==> !present
    ensures r.Fail? ==> r.error == MetaMaskNotFound
  {
    if !present then Fail(MetaMaskNotFound) else Ok(BrowserProvider)
  }

  /** The add-chain request names exactly the chain the check requires. */
  lemma AddedChainIsRequiredChain(w: Wallet, q: WalletRequest)
    requires q in SwitchToSepoliaNetwork(w).issued && q.AddChain?
    ensures q.params.chainId == RequiredChainId
    ensures CheckNetwork(w.(chainIdReply := Ok(q.params.chainId))).result == Ok(w.present)
  {
  }
}
