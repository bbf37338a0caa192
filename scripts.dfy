/**
 * What the two maintenance scripts see of the outside world and what a run
 * of one of them amounts to. Remote calls are not performed: each answer the
 * scripts await is an input (`Replies`), and a run reports its outcome, the
 * remote writes it issued, in order, and the explorer link it prints.
 */
module ScriptRuns {
  import opened Wrappers
  import opened DiamondCut

  /** A transaction hash, as the hex text the scripts print. */
  type TxHash = string

  /** Chain ids of the two configured networks. */
  const SankoTestnetId: int := 1992
  const ArbitrumSepoliaId: int := 421614

  const ArbiscanTxUrl: string := "https://sepolia.arbiscan.io/tx/"
  const CalderaTxUrl: string := "https://sanko-arb-sepolia.calderaexplorer.xyz/tx/"

  /** `process.env.DIAMOND_ADDRESS` and `process.env.PRIVATE_KEY`; None when unset. */
  datatype Env = Env(diamondAddress: Option<string>, privateKey: Option<string>)

  /** A variable passes a `!value` guard: unset and the empty string both fail it. */
  predicate IsSet(v: Option<string>): (b: bool)
    ensures v.None? ==> !b
    ensures v == Some("") ==> !b
    ensures v.Some? && v.value != "" ==> b
  {
    v.Some? && v.value != ""
  }

  /** The settlement of an awaited promise. */
  datatype Awaited<T> = Resolved(value: T) | Rejected

  /** The fields of a transaction receipt that the scripts read. */
  datatype Receipt = Receipt(status: string, contractAddress: Option<Address>)

  /**
   * The answers of the remote side, in the order the scripts ask for them:
   * whether `privateKeyToAccount` accepts the key, the facet deployment's hash
   * and receipt, and the `diamondCut` transaction's hash and receipt.
   */
  datatype Replies = Replies(accountCreated: bool,
                             deployTx: Awaited<TxHash>, deployReceipt: Awaited<Receipt>,
                             cutTx: Awaited<TxHash>, cutReceipt: Awaited<Receipt>)

  /** A remote write, recorded when the script issues it. */
  datatype Effect = DeployFacet | SendDiamondCut(diamond: string, call: DiamondCutCall)

  /** A step inside the scripts' `try` block whose exception ends the run. */
  datatype Step = CreateAccount | DeployContract | AwaitDeployReceipt | ExtractSelectors
                | WriteDiamondCut | AwaitCutReceipt

  datatype Failure =
    | MissingDiamondAddress
    | MissingPrivateKey
    | NetworkConfigThrew
    | Threw(step: Step)
    | NoContractAddress
    | TransactionFailed

  datatype Status = Succeeded(tx: TxHash) | Failed(failure: Failure)

  datatype Report = Report(status: Status, effects: seq<Effect>, explorer: Option<string>)

  /** The process exit code: 0 after `main` returns, 1 after every `process.exit(1)`. */
  function ExitCode(r: Report): (code: int)
    ensures code == 0 || code == 1
    ensures code == 0 <==> r.status.Succeeded?
  {
    if r.status.Succeeded? then 0 else 1
  }

  /**
   * The explorer link printed after a successful cut: one for each of the two
   * configured chains, naming the transaction; none for any other chain.
   */
  function ExplorerLink(chainId: int, tx: TxHash): (r: Option<string>)
    ensures r.Some? <==> chainId == ArbitrumSepoliaId || chainId == SankoTestnetId
    ensures r.Some? ==> |r.value| > |tx| && r.value[|r.value| - |tx|..] == tx
    ensures r.Some? ==> r.value[..|r.value| - |tx|]
                        == if chainId == ArbitrumSepoliaId then ArbiscanTxUrl else CalderaTxUrl
  {
    if chainId == ArbitrumSepoliaId then Some(ArbiscanTxUrl + tx)
    else if chainId == SankoTestnetId then Some(CalderaTxUrl + tx)
    else None
  }
}

/** `scripts/add-proxy-admin-facet.ts`: deploy ProxyAdminFacet and Add all its selectors. */
module AddProxyAdminFacet {
  import opened Wrappers
  import opened Abi
  import opened DiamondCut
  import opened ScriptRuns

  /**
   * The single-record cut: Add every selector of the facet ABI, unfiltered and
   * in ABI order, to the newly deployed facet; no initialisation.
   */
  function ProxyAdminAddCut(facet: Address, facetAbi: seq<AbiEntry>, h: SelectorHash): (r: Option<DiamondCutCall>)
    ensures r.Some? <==> Extractable(facetAbi)
    ensures r.Some? ==> |r.value.cuts| == 1 && NoInit(r.value)
    ensures r.Some? ==> r.value.cuts[0].target == facet && r.value.cuts[0].action.Code() == 0
    ensures r.Some? ==> |r.value.cuts[0].selectors| == |FunctionItems(facetAbi)|
    ensures r.Some? ==> forall k :: 0 <= k < |r.value.cuts[0].selectors| ==>
      r.value.cuts[0].selectors[k] == h(EntrySignature(FunctionItems(facetAbi)[k]))
  {
    var selectors :- FunctionSelectors(facetAbi, h);
    Some(DiamondCutCall([FacetCut(facet, Add, selectors)], ZeroAddress, []))
  }

  /** The run gets past both environment guards, the network lookup and the account. */
  predicate PassesGuards(env: Env, network: Option<int>, replies: Replies) {
    IsSet(env.diamondAddress) && IsSet(env.privateKey) && network.Some? && replies.accountCreated
  }

  /** The deployment was sent and its receipt carries the new contract's address. */
  predicate Deployed(replies: Replies) {
    && replies.deployTx.Resolved?
    && replies.deployReceipt.Resolved?
    && replies.deployReceipt.value.contractAddress.Some?
  }

  /**
   * `main`. `network` is the chain id that `getNetworkConfig` resolves (None
   * when it throws); `facetAbi` is the ProxyAdminFacet artifact's ABI.
   */
  method Execute(env: Env, network: Option<int>, facetAbi: seq<AbiEntry>, h: SelectorHash, replies: Replies)
    returns (report: Report)
    ensures !IsSet(env.diamondAddress) ==> report == Report(Failed(MissingDiamondAddress), [], None)
    ensures IsSet(env.diamondAddress) && !IsSet(env.privateKey)
            ==> report == Report(Failed(MissingPrivateKey), [], None)
    ensures IsSet(env.diamondAddress) && IsSet(env.privateKey) && network.None?
            ==> report == Report(Failed(NetworkConfigThrew), [], None)
    ensures report.effects == [] <==> !PassesGuards(env, network, replies)
    ensures report.effects != [] ==> report.effects[0] == DeployFacet && |report.effects| <= 2
    ensures PassesGuards(env, network, replies) && replies.deployTx.Resolved? && replies.deployReceipt.Resolved?
            && replies.deployReceipt.value.contractAddress.None?
            ==> report == Report(Failed(NoContractAddress), [DeployFacet], None)
    ensures PassesGuards(env, network, replies) && Deployed(replies) && !Extractable(facetAbi)
            ==> report == Report(Failed(Threw(ExtractSelectors)), [DeployFacet], None)
    ensures |report.effects| == 2 <==> PassesGuards(env, network, replies) && Deployed(replies) && Extractable(facetAbi)
    ensures |report.effects| == 2 ==>
      report.effects[1] == SendDiamondCut(env.diamondAddress.value,
        ProxyAdminAddCut(replies.deployReceipt.value.contractAddress.value, facetAbi, h).value)
    ensures report.status.Succeeded? <==>
      |report.effects| == 2 && replies.cutTx.Resolved? && replies.cutReceipt.Resolved?
      && replies.cutReceipt.value.status == "success"
    ensures |report.effects| == 2 && replies.cutTx.Resolved? && replies.cutReceipt.Resolved?
            && replies.cutReceipt.value.status != "success"
            ==> report.status == Failed(TransactionFailed)
    ensures report.status.Succeeded? ==>
      report.status.tx == replies.cutTx.value && report.explorer == ExplorerLink(network.value, replies.cutTx.value)
    ensures report.status.Failed? ==> report.explorer == None
    ensures ExitCode(report) == (if report.status.Succeeded? then 0 else 1)
    ensures !IsSet(env.diamondAddress) || !IsSet(env.privateKey) ==> ExitCode(report) == 1
  {
    if !IsSet(env.diamondAddress) {
      return Report(Failed(MissingDiamondAddress), [], None);
    }
    if !IsSet(env.privateKey) {
      return Report(Failed(MissingPrivateKey), [], None);
    }
    if network.None? {
      return Report(Failed(NetworkConfigThrew), [], None);
    }
    var chainId := network.value;
    var effects: seq<Effect> := [];

    if !replies.accountCreated {
      return Report(Failed(Threw(CreateAccount)), effects, None);
    }

    effects := effects + [DeployFacet];
    if replies.deployTx.Rejected? {
      return Report(Failed(Threw(DeployContract)), effects, None);
    }
    if replies.deployReceipt.Rejected? {
      return Report(Failed(Threw(AwaitDeployReceipt)), effects, None);
    }
    var deployReceipt := replies.deployReceipt.value;
    if deployReceipt.contractAddress.None? {
      return Report(Failed(NoContractAddress), effects, None);
    }
    var facet := deployReceipt.contractAddress.value;

    var cut := ProxyAdminAddCut(facet, facetAbi, h);
    if cut.None? {
      return Report(Failed(Threw(ExtractSelectors)), effects, None);
    }

    effects := effects + [SendDiamondCut(env.diamondAddress.value, cut.value)];
    if replies.cutTx.Rejected? {
      return Report(Failed(Threw(WriteDiamondCut)), effects, None);
    }
    var tx := replies.cutTx.value;
    if replies.cutReceipt.Rejected? {
      return Report(Failed(Threw(AwaitCutReceipt)), effects, None);
    }

    if replies.cutReceipt.value.status == "success" {
      report := Report(Succeeded(tx), effects, ExplorerLink(chainId, tx));
    } else {
      report := Report(Failed(TransactionFailed), effects, None);
    }
  }
}

/** `scripts/remove-proxy-admin-facet.ts`: Remove all of ProxyAdminFacet's selectors on Sanko testnet. */
module RemoveProxyAdminFacet {
  import opened Wrappers
  import opened Abi
  import opened DiamondCut
  import opened ScriptRuns
  import AddProxyAdminFacet

  /**
   * The single-record cut: Remove every selector of the facet ABI, in ABI
   * order, with the zero address as target; no initialisation.
   */
  function ProxyAdminRemoveCut(facetAbi: seq<AbiEntry>, h: SelectorHash): (r: Option<DiamondCutCall>)
    ensures r.Some? <==> Extractable(facetAbi)
    ensures r.Some? ==> |r.value.cuts| == 1 && NoInit(r.value)
    ensures r.Some? ==> r.value.cuts[0].target == ZeroAddress && r.value.cuts[0].action.Code() == 2
    ensures r.Some? ==> |r.value.cuts[0].selectors| == |FunctionItems(facetAbi)|
    ensures r.Some? ==> forall k :: 0 <= k < |r.value.cuts[0].selectors| ==>
      r.value.cuts[0].selectors[k] == h(EntrySignature(FunctionItems(facetAbi)[k]))
  {
    var selectors :- FunctionSelectors(facetAbi, h);
    Some(DiamondCutCall([FacetCut(ZeroAddress, Remove, selectors)], ZeroAddress, []))
  }

  /**
   * For the same artifact, the remove script's cut names exactly the selectors
   * the add script's cut added, in the same order, with action Remove.
   */
  lemma RemoveCutMatchesAddCut(facet: Address, facetAbi: seq<AbiEntry>, h: SelectorHash)
    ensures AddProxyAdminFacet.ProxyAdminAddCut(facet, facetAbi, h).Some? <==> ProxyAdminRemoveCut(facetAbi, h).Some?
    ensures ProxyAdminRemoveCut(facetAbi, h).Some? ==>
      var added := AddProxyAdminFacet.ProxyAdminAddCut(facet, facetAbi, h).value.cuts[0];
      var removed := ProxyAdminRemoveCut(facetAbi, h).value.cuts[0];
      removed.selectors == added.selectors && added.action == Add && removed.action == Remove
  {
  }

  predicate PassesGuards(env: Env, replies: Replies) {
    IsSet(env.diamondAddress) && IsSet(env.privateKey) && replies.accountCreated
  }

  /**
   * `main`. The chain is fixed to Sanko testnet; the deployment fields of
   * `replies` are not consulted, since this script deploys nothing.
   */
  method Execute(env: Env, facetAbi: seq<AbiEntry>, h: SelectorHash, replies: Replies)
    returns (report: Report)
    ensures !IsSet(env.diamondAddress) ==> report == Report(Failed(MissingDiamondAddress), [], None)
    ensures IsSet(env.diamondAddress) && !IsSet(env.privateKey)
            ==> report == Report(Failed(MissingPrivateKey), [], None)
    ensures PassesGuards(env, replies) && !Extractable(facetAbi)
            ==> report == Report(Failed(Threw(ExtractSelectors)), [], None)
    ensures |report.effects| <= 1
    ensures |report.effects| == 1 <==> PassesGuards(env, replies) && Extractable(facetAbi)
    ensures |report.effects| == 1 ==>
      report.effects[0] == SendDiamondCut(env.diamondAddress.value, ProxyAdminRemoveCut(facetAbi, h).value)
    ensures report.status.Succeeded? <==>
      |report.effects| == 1 && replies.cutTx.Resolved? && replies.cutReceipt.Resolved?
      && replies.cutReceipt.value.status == "success"
    ensures |report.effects| == 1 && replies.cutTx.Resolved? && replies.cutReceipt.Resolved?
            && replies.cutReceipt.value.status != "success"
            ==> report.status == Failed(TransactionFailed)
    ensures report.status.Succeeded? ==>
      report.status.tx == replies.cutTx.value && report.explorer == Some(CalderaTxUrl + replies.cutTx.value)
    ensures report.status.Failed? ==> report.explorer == None
    ensures ExitCode(report) == (if report.status.Succeeded? then 0 else 1)
    ensures !IsSet(env.diamondAddress) || !IsSet(env.privateKey) ==> ExitCode(report) == 1
  {
    if !IsSet(env.diamondAddress) {
      return Report(Failed(MissingDiamondAddress), [], None);
    }
    if !IsSet(env.privateKey) {
      return Report(Failed(MissingPrivateKey), [], None);
    }
    var effects: seq<Effect> := [];

    if !replies.accountCreated {
      return Report(Failed(Threw(CreateAccount)), effects, None);
    }

    var cut := ProxyAdminRemoveCut(facetAbi, h);
    if cut.None? {
      return Report(Failed(Threw(ExtractSelectors)), effects, None);
    }

    effects := effects + [SendDiamondCut(env.diamondAddress.value, cut.value)];
    if replies.cutTx.Rejected? {
      return Report(Failed(Threw(WriteDiamondCut)), effects, None);
    }
    var tx := replies.cutTx.value;
    if replies.cutReceipt.Rejected? {
      return Report(Failed(Threw(AwaitCutReceipt)), effects, None);
    }

    if replies.cutReceipt.value.status == "success" {
      report := Report(Succeeded(tx), effects, Some(CalderaTxUrl + tx));
    } else {
      report := Report(Failed(TransactionFailed), effects, None);
    }
  }
}
