/**
 * The Ignition module `ChainCraft`: the argument values it builds for the
 * `diamondCut` call that installs OperableFacet and GameRegistryFacet on the
 * freshly deployed ChainCraftDiamond. The deployments themselves are Ignition
 * futures; here they are the facets' addresses.
 */
module ChainCraftModule {
  import opened Wrappers
  import opened Abi
  import opened DiamondCut

  /**
   * The `diamondCut` arguments: an Add record per facet, each carrying that
   * facet's selectors minus those the diamond's own ABI already yields, then
   * the zero init target and `"0x"`. None when extracting the selectors of
   * any of the three ABIs throws.
   */
  function ChainCraftCut(operableFacet: Address, gameRegistryFacet: Address,
                         operableAbi: seq<AbiEntry>, gameRegistryAbi: seq<AbiEntry>,
                         diamondAbi: seq<AbiEntry>, h: SelectorHash): (r: Option<DiamondCutCall>)
    ensures r.Some? <==> Extractable(operableAbi) && Extractable(gameRegistryAbi) && Extractable(diamondAbi)
    ensures r.Some? ==> |r.value.cuts| == 2 && NoInit(r.value)
    ensures r.Some? ==> r.value.cuts[0].target == operableFacet && r.value.cuts[0].action.Code() == 0
    ensures r.Some? ==> r.value.cuts[1].target == gameRegistryFacet && r.value.cuts[1].action.Code() == 0
  {
    var operableSelectors :- FunctionSelectors(operableAbi, h);
    var gameRegistrySelectors :- FunctionSelectors(gameRegistryAbi, h);
    var alreadyAdded :- FunctionSelectors(diamondAbi, h);
    Some(DiamondCutCall(
      [ FacetCut(operableFacet, Add, FilterAlreadyAdded(operableSelectors, alreadyAdded)),
        FacetCut(gameRegistryFacet, Add, FilterAlreadyAdded(gameRegistrySelectors, alreadyAdded)) ],
      ZeroAddress, []))
  }

  /**
   * What one Add record of the cut routes, against the facet's own selectors
   * and the diamond's: none of the diamond's, every one of the facet's that
   * the diamond lacks (each as often as the facet ABI yields it), in the
   * facet's order; filtering it again removes nothing.
   */
  ghost predicate RoutesOnlyNew(routed: seq<Selector>, facet: seq<Selector>, diamond: seq<Selector>) {
    && (forall x :: x in routed ==> x !in diamond)
    && (forall x :: x in facet && x !in diamond ==> x in routed)
    && (forall x :: multiset(routed)[x] == if x in diamond then 0 else multiset(facet)[x])
    && IsSubsequence(routed, facet)
    && FilterAlreadyAdded(routed, diamond) == routed
  }

  lemma FilterRoutesOnlyNew(facet: seq<Selector>, diamond: seq<Selector>)
    ensures RoutesOnlyNew(FilterAlreadyAdded(facet, diamond), facet, diamond)
  {
    var routed := FilterAlreadyAdded(facet, diamond);
    forall x ensures multiset(routed)[x] == if x in diamond then 0 else multiset(facet)[x] {
      FilterCounts(facet, diamond, x);
    }
    FilterIsSubsequence(facet, diamond);
    FilterIdempotent(facet, diamond);
  }

  /** Both records of the ChainCraft cut route only selectors the diamond does not already own. */
  lemma ChainCraftCutRoutesOnlyNew(operableFacet: Address, gameRegistryFacet: Address,
                                   operableAbi: seq<AbiEntry>, gameRegistryAbi: seq<AbiEntry>,
                                   diamondAbi: seq<AbiEntry>, h: SelectorHash)
    requires Extractable(operableAbi) && Extractable(gameRegistryAbi) && Extractable(diamondAbi)
    ensures
      var call := ChainCraftCut(operableFacet, gameRegistryFacet, operableAbi, gameRegistryAbi, diamondAbi, h).value;
      var diamond := FunctionSelectors(diamondAbi, h).value;
      && RoutesOnlyNew(call.cuts[0].selectors, FunctionSelectors(operableAbi, h).value, diamond)
      && RoutesOnlyNew(call.cuts[1].selectors, FunctionSelectors(gameRegistryAbi, h).value, diamond)
  {
    var diamond := FunctionSelectors(diamondAbi, h).value;
    FilterRoutesOnlyNew(FunctionSelectors(operableAbi, h).value, diamond);
    FilterRoutesOnlyNew(FunctionSelectors(gameRegistryAbi, h).value, diamond);
  }
}
