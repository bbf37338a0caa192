# ChainCraft diamond-cut construction, modelled in Dafny

The ChainCraft contracts form a diamond. One contract (ChainCraftDiamond) routes each incoming call, by its 4-byte function selector, to one of several facet contracts. Three TypeScript programs build the `diamondCut` call that changes that routing:

- the Hardhat Ignition module `ignition/modules/ChainCraft.ts` installs OperableFacet and GameRegistryFacet on a fresh diamond;
- `scripts/add-proxy-admin-facet.ts` deploys ProxyAdminFacet and adds its selectors;
- `scripts/remove-proxy-admin-facet.ts` removes those selectors again.

This project models what those programs compute and decide, and proves properties of it.

- `abi.dfy`, module `Abi`: `getFunctionSelectors`. All three files define it, with identical bodies (ChainCraft.ts:14-23, add-proxy-admin-facet.ts:22-31, remove-proxy-admin-facet.ts:21-30).
  - It keeps the ABI entries whose `type` is `"function"`.
  - It builds the text `name(t1,t2,...)` from the inputs' `type` strings.
  - It hashes that text to four bytes.
  - The hash (`toFunctionSelector`, Keccak-256) is the parameter `h: string -> Selector`. Every result therefore holds for any deterministic hash. No four-byte hash is collision-free on all strings. So where a property needs distinct selectors, the lemma assumes only that the hash does not collide on the two signatures it compares.
  - The input `type` strings are used verbatim. A struct parameter therefore contributes `tuple` or `tuple[]`, not its component types (`TupleTypeUsedVerbatim`). The canonical Solidity signature spells the components out, so a facet function with a struct parameter gets a different selector from the canonical one. The model keeps the code's behaviour.
  - An entry with no `inputs` array makes `func.inputs.map` throw. The model returns None for that case.
- `cut.dfy`, module `DiamondCut`:
  - the `FacetCutAction` enum and its wire numbers;
  - the `{target, action, selectors}` records and the three `diamondCut` arguments;
  - the filter that drops selectors the diamond's own ABI already yields (a selector survives only if the already-added list does not include it).
- `chaincraft.dfy`, module `ChainCraftModule`: the cut built by the Ignition module. It has two Add records, OperableFacet then GameRegistryFacet, each with its filtered selectors, the zero init target and init data `"0x"`.
- `scripts.dfy`, modules `ScriptRuns`, `AddProxyAdminFacet` and `RemoveProxyAdminFacet`: the two scripts' `main` as sequential methods.
  - Every answer a script awaits from the network is an input (`Replies`).
  - A run produces a `Report` with three parts: success (with the transaction hash) or the failure that ended it; the remote writes issued, in order; and the explorer link printed.
  - `ExitCode` maps a report to the process exit code.
  - Both scripts check `DIAMOND_ADDRESS`, then `PRIVATE_KEY`. Unset or empty aborts with exit 1 before anything else.
  - The add script then resolves the network and deploys the facet. If the receipt lacks `contractAddress`, it fails before any cut is sent. Otherwise it sends one Add record holding all of the facet's selectors, unfiltered.
  - The remove script sends one Remove record with the zero address as target.
  - A cut receipt whose status is `"success"` ends in exit 0. Any other status, and any exception, ends in exit 1.
  - The add script prints an Arbiscan link for chain 421614, a Caldera explorer link for chain 1992 (Sanko testnet), and no link for other chains.

Behaviour of the code that the model keeps as written:

- The add script never looks at the deployment receipt's `status`, only at `contractAddress`. The model does the same: the outcome depends only on whether the address is present.
- In the add script, selectors are extracted after the facet is deployed (add-proxy-admin-facet.ts:128). A malformed ABI therefore fails the run with the deployment already sent.
- Selector lists are not deduplicated. Nothing reports a signature that occurs twice in one ABI.
- The only "diff" is the filter at ChainCraft.ts:80-86, against the diamond's own ABI. The code never reads the live routing table and never classifies a selector as Replace or Remove. The model follows the code and does not add such a diff engine.

## Model

| member | source | states |
|---|---|---|
| Abi.FunctionItems | ignition/modules/ChainCraft.ts:16 | an entry is kept iff it is in the ABI and its `type` is "function"; no more entries than the ABI |
| Abi.FunctionItemsCounts | ignition/modules/ChainCraft.ts:15-16 | each function entry is kept as often as it occurs in the ABI, and other entries not at all (no deduplication) |
| Abi.SelectorsOf | ignition/modules/ChainCraft.ts:17-22 | the map succeeds iff every function has an `inputs` array; then it gives one selector per function, in order, each the hash of that function's `name(types)` text |
| Abi.FunctionSelectors | ignition/modules/ChainCraft.ts:14-23 | `getFunctionSelectors` succeeds iff every function entry has inputs; then its k-th selector is the hash of the signature of the ABI's k-th function entry, and there is one per function entry |
| Abi.NonFunctionEntryIgnored | ignition/modules/ChainCraft.ts:16 | inserting an event, error, constructor or any other non-function entry anywhere in an ABI leaves the selectors unchanged |
| Abi.NoFunctionsNoSelectors | ignition/modules/ChainCraft.ts:15-16 | an ABI with no function entries yields the empty list, not an error |
| Abi.Join | ignition/modules/ChainCraft.ts:19-20 | the types are glued with a single ',' between neighbours: no types give the empty text, the text begins with the first type, and a ',' follows it when more come |
| Abi.TypeStrings | ignition/modules/ChainCraft.ts:18-19 | one type string per input, in order, each the input's `type` verbatim |
| Abi.Signature | ignition/modules/ChainCraft.ts:18-20 | the text starts with the function name, then '(', and ends with ')'; no inputs give `name()`, one input `name(t)` |
| Abi.ParseSignature | ignition/modules/ChainCraft.ts:18-20 | reading a signature back: whatever name and type list it reads, `name + "(" + join(types, ",") + ")"` rebuilds the same text |
| Abi.SignatureRoundTrip | ignition/modules/ChainCraft.ts:18-20 | for a name without '(' and non-empty, comma-free types, the signature reads back as exactly that name and type list; zero inputs read back as `name()` |
| Abi.SignatureInjective | ignition/modules/ChainCraft.ts:18-20 | under the same conditions, two descriptions give the same signature iff they have the same name and the same ordered types |
| Abi.SelectorDistinguishes | ignition/modules/ChainCraft.ts:18-21 | if the hash does not collide on the two signatures compared, changing the name or any parameter type changes the selector; equal descriptions give equal selectors |
| Abi.SingleFunctionSelector | scripts/add-proxy-admin-facet.ts:22-31 | an ABI holding one well-formed function yields exactly that function's selector |
| Abi.TupleTypeUsedVerbatim | scripts/remove-proxy-admin-facet.ts:25-28 | a `tuple[]` input contributes the text "tuple[]". The example input is an entry shaped like the scripts' `DIAMOND_ABI` `diamondCut` entry, which would hash `diamondCut(tuple[],address,bytes)`. The scripts themselves never pass that entry to `getFunctionSelectors`: they hand it to `getContract` (remove-proxy-admin-facet.ts:109-113), whose encoder uses the entry's `components` |
| DiamondCut.FacetCutAction.Code | ignition/modules/ChainCraft.ts:7-11 | every action's wire value is below 3 |
| DiamondCut.ActionOfCode | scripts/add-proxy-admin-facet.ts:15-19 | a wire value decodes iff it is below 3, and it decodes to the action with that value |
| DiamondCut.ActionCodes | scripts/remove-proxy-admin-facet.ts:14-18 | Add = 0, Replace = 1, Remove = 2, and each action decodes back to itself |
| DiamondCut.FilterAlreadyAdded | ignition/modules/ChainCraft.ts:80-86 | a selector is in the filtered list iff it is in the facet's list and not in the already-added list |
| DiamondCut.FilterIsSubsequence | ignition/modules/ChainCraft.ts:80-86 | the filtered list is an order-preserving subsequence of the facet's list |
| DiamondCut.FilterCounts | ignition/modules/ChainCraft.ts:80-86 | every occurrence of an already-added selector is dropped; every occurrence of any other is kept |
| DiamondCut.FilterDisjointIsIdentity | ignition/modules/ChainCraft.ts:80-82 | a list sharing nothing with the already-added list passes through unchanged |
| DiamondCut.FilterIdempotent | ignition/modules/ChainCraft.ts:84-86 | filtering an already-filtered list against the same list changes nothing |
| ChainCraftModule.ChainCraftCut | ignition/modules/ChainCraft.ts:95-121 | the cut exists iff all three ABIs extract; it has exactly two records, OperableFacet then GameRegistryFacet, both action code 0 (Add), each targeting its own facet; init target zero, init data empty |
| ChainCraftModule.FilterRoutesOnlyNew | ignition/modules/ChainCraft.ts:74-86 | a filtered list contains none of the diamond's selectors, all of the facet's other selectors with their multiplicities, in order, and is a fixed point of the filter |
| ChainCraftModule.ChainCraftCutRoutesOnlyNew | ignition/modules/ChainCraft.ts:63-116 | both records of the cut carry exactly the facet's selectors not yielded by the diamond's ABI, in the facet's order |
| ScriptRuns.IsSet | scripts/add-proxy-admin-facet.ts:62-73 | an environment variable passes the `!value` guards (lines 62 and 70; remove-proxy-admin-facet.ts:61 and 69 alike) iff it is set and not empty: unset and `""` both fail |
| ScriptRuns.ExitCode | scripts/add-proxy-admin-facet.ts:183-197 | the exit code is 0 or 1, and 0 iff the run succeeded: `main` returning exits 0, every failure (the guards at lines 67 and 72, a failed receipt, an exception) exits 1 |
| ScriptRuns.ExplorerLink | scripts/add-proxy-admin-facet.ts:170-178 | a link is printed iff the chain is Arbitrum Sepolia (421614) or Sanko testnet (1992); it ends with the transaction hash and starts with that chain's explorer transaction path |
| AddProxyAdminFacet.ProxyAdminAddCut | scripts/add-proxy-admin-facet.ts:143-149 | one record, action code 0 (Add), target the deployed facet, selectors all of the facet ABI's function selectors in ABI order, unfiltered; no initialisation |
| AddProxyAdminFacet.Execute | scripts/add-proxy-admin-facet.ts:56-197 | DIAMOND_ADDRESS is checked first, then PRIVATE_KEY, then the network: each failure exits 1 with nothing sent. A receipt without a contract address, or a malformed ABI, fails after the deploy with no cut sent. A cut, when sent, is the single Add record to the deployed address, sent to DIAMOND_ADDRESS. Success iff the cut's receipt status is "success"; only then is the chain's explorer link printed |
| RemoveProxyAdminFacet.ProxyAdminRemoveCut | scripts/remove-proxy-admin-facet.ts:116-122 | one record, target the zero address, action code 2 (Remove), selectors all of the facet ABI's function selectors in ABI order; no initialisation |
| RemoveProxyAdminFacet.RemoveCutMatchesAddCut | scripts/remove-proxy-admin-facet.ts:101-122 | for the same artifact, the remove cut names exactly the selectors the add cut added, in the same order |
| RemoveProxyAdminFacet.Execute | scripts/remove-proxy-admin-facet.ts:55-175 | DIAMOND_ADDRESS is checked before PRIVATE_KEY, and either missing exits 1 with nothing sent. At most one write, the Remove cut to DIAMOND_ADDRESS, is sent iff the guards, the account and selector extraction succeed. Success iff the receipt status is "success", and the Caldera explorer link is printed only then |

## Left out

- Keccak-256 inside `toFunctionSelector` is a parameter of the model, not computed. The signature text is hashed as built.
- The selector computation is treated as total: it never throws and never rewrites the text. The library may normalise the signature before hashing, and may throw on text it cannot parse (unbalanced parentheses, for instance a `name` containing '('). Neither is modelled.
- Network I/O through viem (`createPublicClient`, `createWalletClient`, `deployContract`, `waitForTransactionReceipt`, `getContract`, `writeContract`) is not performed. The model takes its answers as inputs: a resolved or rejected hash, and a receipt with a status and an optional contract address.
- `privateKeyToAccount` is reduced to whether it accepts the key.
- `utils/chains.ts` exports only `sankoTestnet`. `getNetworkConfig` and `arbitrumSepolia`, imported at add-proxy-admin-facet.ts:10, are not defined there. The network lookup is therefore the input `network`: a chain id, or None when the lookup throws. The chain ids 1992 and 421614 come from `hardhat.config.ts`.
- Loading artifacts with `require` is not modelled. ABIs are inputs, and a missing artifact file is not modelled.
- Of an ABI entry the model keeps only what `getFunctionSelectors` reads. A missing `name` (which JavaScript renders as "undefined") and a missing input `type` are not modelled.
- Hardhat Ignition futures and scheduling (`buildModule`, `m.contract`, `m.call`, `m.contractAt`) are not modelled. Facets are represented by their addresses.
- The Ignition module's second call, `initialize("ChainCraft Games", "CCG")` on the diamond (ChainCraft.ts:126-132), is left out. It is a fixed call to the game registry, not part of the cut.
- The remove script's 5-second delay and all console output are left out. With the delay goes its Ctrl+C cancellation path, in which the user aborts during the wait, no cut is sent and the process exits non-zero. The only printed item kept is the explorer link, because choosing it is a decision of the code.
- `scripts/list-operators.ts` makes read-only RPC calls and prints the results. It is not part of this model.
- The on-chain effect of a cut (the diamond's routing table, its rejection of duplicate or unknown selectors) belongs to the contracts, not to these programs. The receipt status stands for it.
