/** `switchNetwork`: ask the wallet to switch to Polygon Mumbai, and add that chain to
    the wallet when the wallet does not know it. */
module Network {
  import opened Chain

  /** The one network the page works on, by the name it is looked up under. */
  const TargetName := "Polygon Mumbai Testnet"
  /** Its chain id, in the hexadecimal form the wallet expects. */
  const TargetChainId := "0x13881"
  /** The wallet's error code for "this chain has not been added". */
  const UnknownChainCode := 4902

  /** The chain description sent with `wallet_addEthereumChain`. */
  datatype ChainSpec = ChainSpec(
    chainId: string, chainName: string,
    currencyName: string, currencySymbol: string, decimals: nat)

  const Mumbai := ChainSpec(TargetChainId, TargetName, "Mumbai Matic", "MATIC", 18)

  /** A request made to the wallet. */
  datatype WalletRequest = SwitchChain(chainId: string) | AddChain(spec: ChainSpec)

  /** The requests `switchNetwork` makes. Every error is caught, including one from
      adding the chain, and the switch is not tried again afterwards. With a wallet,
      the switch is requested first and exactly once; the Mumbai chain is added
      exactly when the switch fails with code 4902, and nothing else is ever
      requested. Without a wallet nothing is requested. */
  function SwitchRequests(gw: Gateway): (rs: seq<WalletRequest>)
    ensures !gw.present <==> rs == []
    ensures gw.present ==> rs[0] == SwitchChain(TargetChainId)
    ensures forall i :: 1 <= i < |rs| ==> rs[i] == AddChain(Mumbai)
    ensures AddChain(Mumbai) in rs <==> gw.present && gw.switchAnswer == SwitchFailed(UnknownChainCode)
    ensures |rs| <= 2
  {
    if !gw.present then []
    else
      match gw.switchAnswer
      case SwitchFailed(code) =>
        if code == UnknownChainCode then [SwitchChain(TargetChainId), AddChain(Mumbai)]
        else [SwitchChain(TargetChainId)]
      case Switched => [SwitchChain(TargetChainId)]
  }
}
