/**
 * The argument values of a `diamondCut` call: the `FacetCutAction` enum, the
 * `{target, action, selectors}` records, the init target and init data, and
 * the filter that drops selectors the diamond already routes.
 */
module DiamondCut {
  import opened Wrappers
  import opened Abi

  /** A 20-byte contract address. */
  type Address = s: seq<bv8> | |s| == 20 witness [0, 0, 0, 0, 0, 0, 0, 0, 0, 0, 0, 0, 0, 0, 0, 0, 0, 0, 0, 0]

  /** `0x0000000000000000000000000000000000000000`. */
  const ZeroAddress: Address := [0, 0, 0, 0, 0, 0, 0, 0, 0, 0, 0, 0, 0, 0, 0, 0, 0, 0, 0, 0]

  /** `FacetCutAction`; its wire value is Code(). */
  datatype FacetCutAction = Add | Replace | Remove {

    /** The enum's numeric value, sent as a `uint8`. */
    function Code(): (c: nat)
      ensures c < 3
    {
      match this
      case Add => 0
      case Replace => 1
      case Remove => 2
    }
  }

  /** Decodes a wire value back to the enum member that has it. */
  function ActionOfCode(c: nat): (r: Option<FacetCutAction>)
    ensures r.Some? <==> c < 3
    ensures r.Some? ==> r.value.Code() == c
  {
    if c == 0 then Some(Add)
    else if c == 1 then Some(Replace)
    else if c == 2 then Some(Remove)
    else None
  }

  /** The numbering is Add = 0, Replace = 1, Remove = 2, and each member decodes to itself. */
  lemma ActionCodes(a: FacetCutAction)
    ensures ActionOfCode(a.Code()) == Some(a)
    ensures Add.Code() == 0 && Replace.Code() == 1 && Remove.Code() == 2
  {
  }

  /** One `{target, action, selectors}` record. */
  datatype FacetCut = FacetCut(target: Address, action: FacetCutAction, selectors: seq<Selector>)

  /** The three arguments of `diamondCut`: the records, the init target and the init calldata. */
  datatype DiamondCutCall = DiamondCutCall(cuts: seq<FacetCut>, initTarget: Address, initData: seq<bv8>)

  /** No initialisation: init target the zero address, init data `"0x"` (no bytes). */
  predicate NoInit(call: DiamondCutCall) {
    call.initTarget == ZeroAddress && call.initData == []
  }

  // ---------------------------------------------------------------------------
  // Dropping the selectors that the diamond's own ABI already yields

  /** `a` is obtained from `b` by deleting elements, keeping the rest in order. */
  predicate IsSubsequence(a: seq<Selector>, b: seq<Selector>)
    decreases |b|
  {
    if a == [] then true
    else if b == [] then false
    else (a[0] == b[0] && IsSubsequence(a[1..], b[1..])) || IsSubsequence(a, b[1..])
  }

  /** Keeps, in order and with repetitions, the selectors that `alreadyAdded` does not include. */
  function FilterAlreadyAdded(selectors: seq<Selector>, alreadyAdded: seq<Selector>): (r: seq<Selector>)
    ensures forall x :: x in r <==> x in selectors && x !in alreadyAdded
    ensures |r| <= |selectors|
  {
    if selectors == [] then []
    else
      (if selectors[0] in alreadyAdded then [] else [selectors[0]])
      + FilterAlreadyAdded(selectors[1..], alreadyAdded)
  }

  lemma {:induction false} FilterIsSubsequence(selectors: seq<Selector>, alreadyAdded: seq<Selector>)
    ensures IsSubsequence(FilterAlreadyAdded(selectors, alreadyAdded), selectors)
  {
    if selectors != [] {
      var r := FilterAlreadyAdded(selectors, alreadyAdded);
      var rest := FilterAlreadyAdded(selectors[1..], alreadyAdded);
      FilterIsSubsequence(selectors[1..], alreadyAdded);
      if selectors[0] in alreadyAdded {
        assert r == rest;
        if r != [] {
          assert IsSubsequence(r, selectors[1..]);
        }
      } else {
        assert r == [selectors[0]] + rest;
        assert r[1..] == rest;
      }
    }
  }

  /**
   * The filter deletes every occurrence of an already-added selector and keeps
   * every occurrence of any other (no deduplication).
   */
  lemma {:induction false} FilterCounts(selectors: seq<Selector>, alreadyAdded: seq<Selector>, x: Selector)
    ensures multiset(FilterAlreadyAdded(selectors, alreadyAdded))[x]
            == if x in alreadyAdded then 0 else multiset(selectors)[x]
  {
    if selectors != [] {
      FilterCounts(selectors[1..], alreadyAdded, x);
      assert selectors == [selectors[0]] + selectors[1..];
    }
  }

  /** Selectors disjoint from the already-added list pass through unchanged. */
  lemma {:induction false} FilterDisjointIsIdentity(selectors: seq<Selector>, alreadyAdded: seq<Selector>)
    requires forall x :: x in selectors ==> x !in alreadyAdded
    ensures FilterAlreadyAdded(selectors, alreadyAdded) == selectors
  {
    if selectors != [] {
      assert selectors[0] in selectors;
      assert forall x :: x in selectors[1..] ==> x in selectors;
      FilterDisjointIsIdentity(selectors[1..], alreadyAdded);
      assert [selectors[0]] + selectors[1..] == selectors;
    }
  }

  /** Filtering an already-filtered list against the same list changes nothing. */
  lemma FilterIdempotent(selectors: seq<Selector>, alreadyAdded: seq<Selector>)
    ensures FilterAlreadyAdded(FilterAlreadyAdded(selectors, alreadyAdded), alreadyAdded)
            == FilterAlreadyAdded(selectors, alreadyAdded)
  {
    FilterDisjointIsIdentity(FilterAlreadyAdded(selectors, alreadyAdded), alreadyAdded);
  }
}
