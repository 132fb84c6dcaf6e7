# dsynths asset list and details slice, modelled in Dafny

This project models the data core of the dsynths trading front end:

- the **asset join** of `src/hooks/useAssetList.ts`, which turns four
  chain-indexed store snapshots (conducted long/short pairs, quotes,
  signatures, symbol details) and three sector fees into a list of `Asset`
  records, each with a mirrored long and short `SubAsset` leg;
- the **derived accessors** over that list: the flattened legs, the long
  legs sorted by ticker, case-insensitive lookup by contract, the contract
  list, the contract-to-token dictionary and the token list;
- the **details slice** of `src/state/details/reducer.ts`: the normaliser
  applied to the registrar's response, and the LOADING / OK / ERROR status
  machine driven by the pending, fulfilled and rejected outcomes of the
  fetch.

Files and modules:

| file | module | models |
|---|---|---|
| `Wrappers.dfy` | `Wrappers` | `Option`, for `undefined` results |
| `StringOrder.dfy` | `StringOrder` | JavaScript's `<` on strings, and that it is a strict total order |
| `Details.dfy` | `Details` | `reducer.ts`: sectors, the normaliser, the reducers as `Reduce`, and the slice as the class `DetailsSlice` |
| `Assets.dfy` | `Assets` | the join body of `useAssetList` |
| `AssetViews.dfy` | `AssetViews` | `useSubAssetList`, `useLongAssetsList`, `useAssetByContract`, `useAssetContractMap`, `useTokensFromMap`, `useTokens` |

Modelling choices:

- The React hooks become plain functions and methods. The memoisation is
  dropped. The target and connected chain ids and the store snapshots are
  parameters; the stores travel together as an `Assets.Stores` value.
  `Assets.UseAssetList` resolves the chain as the hook does and then joins.
- Address checksumming (`getAddress`, the EIP-55 mixed-case encoding) is
  the parameter `checksum`, an arbitrary function on addresses. String
  upper-casing is the parameter `upper`. No property of either is assumed.
- The three sector fees are arbitrary real values that the join never
  computes with. Every proof holds for any three values.
- A signature entry is recorded by its JavaScript truthiness (`bool`).
  An absent entry counts as falsy.
- A chain id is `Option<nat>`. The guard `!chainId` rejects an absent id
  and the id `0`.
- The `!details` test of the guard (useAssetList.ts line 92) can never
  fire, because `details` is always an object. One might expect the guard
  to reject an empty details store; the code instead drops every pair at
  the per-pair `!asset` test on line 101. The result is the same empty
  list, which `EmptyDetailsGiveNoAssets` proves.
- `sibling` holds the raw address of the other leg. `contract` holds the
  checksummed one. So the legs are related through `checksum`:
  `long.contract == checksum(short.sibling)`, and the same the other way
  round.
- Loops that mutate an accumulator are methods with loop invariants:
  flattening legs, writing the token dictionary, and normalising the
  response. The `find`/`map`/`filter` expressions are functions. The slice
  is a class whose fields the event methods update. Each method is proved
  against the pure transition function `Reduce`.

## Model

| member | source | states |
|---|---|---|
| `Details.SectorOf` | src/state/details/reducer.ts:55 | `stock` gives STOCKS and `crypto` gives CRYPTO, both ways round. Exactly every other string gives FOREX, so COMMODITIES and MISC never appear. |
| `Details.NormalizeDetails` | src/state/details/reducer.ts:52-61 | The result has exactly the response's keys. Name and symbol are copied. `short_symbol`/`long_symbol` become `shortSymbol`/`longSymbol`. The sector is `SectorOf` of the raw string. No entry is COMMODITIES or MISC. |
| `Details.Normalize` | src/state/details/reducer.ts:53-59 | One entry: name and symbol copied, `short_symbol`/`long_symbol` renamed, and a sector that is never COMMODITIES or MISC. |
| `Details.InitialState` | src/state/details/reducer.ts:36-39 | The initial state is LOADING with an empty details map. |
| `Details.Reduce` | src/state/details/reducer.ts:69-83 | After any single event, an ERROR status comes with empty details. A pending event leaves the details unchanged. |
| `Details.RunStatus` | src/state/details/reducer.ts:69-83 | After a non-empty run of events, the status depends only on the last event: pending gives LOADING, fulfilled OK, rejected ERROR. |
| `Details.RunDetails` | src/state/details/reducer.ts:70-83 | After a run of events, the details map is the payload of the last fulfilled event, unless a later rejection emptied it. Pending events never change it. |
| `Details.RejectedForgetsPrior` | src/state/details/reducer.ts:77-83 | Rejection gives ERROR with empty details, whatever the prior state. |
| `Details.ErrorMeansNoDetails` | src/state/details/reducer.ts:36-83 | From the initial state, every run that ends in ERROR has empty details. |
| `Details.DetailsSlice.constructor` | src/state/details/reducer.ts:36-39 | A new slice is in the initial state: LOADING, no details. |
| `Details.DetailsSlice.OnPending` | src/state/details/reducer.ts:70-72 | Status becomes LOADING. Details are unchanged. The new state is `Reduce` of the old one. |
| `Details.DetailsSlice.OnFulfilled` | src/state/details/reducer.ts:73-76 | Status becomes OK. Details are replaced wholesale by the payload. The new state is `Reduce` of the old one. |
| `Details.DetailsSlice.OnRejected` | src/state/details/reducer.ts:77-83 | Status becomes ERROR with empty details, whatever came before. The new state is `Reduce` of the old one. |
| `StringOrder.LessTrichotomous` | src/hooks/useAssetList.ts:62-70 | Any two tickers are equal, or exactly one of them is `<` the other, so the comparator never returns an inconsistent answer. |
| `StringOrder.LessTransitive` | src/hooks/useAssetList.ts:62-70 | String `<` is transitive. |
| `StringOrder.LessAsymmetric` | src/hooks/useAssetList.ts:62-70 | String `<` is asymmetric. |
| `Assets.ResolveChain` | src/hooks/useAssetList.ts:87-89 | `??` falls back to the connected chain only when the target is absent; any present target, 0 included, is kept. |
| `Assets.UseAssetList` | src/hooks/useAssetList.ts:75-151 | The hook's result: the join on the resolved chain. Every asset it lists is mirrored. |
| `Assets.TargetOverridesConnected` | src/hooks/useAssetList.ts:87-89 | With a target chain, the connected chain has no influence: the result is the target chain's join. |
| `Assets.AbsentTargetUsesConnected` | src/hooks/useAssetList.ts:87-92 | Without a target chain, the result is the connected chain's join. |
| `Assets.ZeroTargetListsNothing` | src/hooks/useAssetList.ts:87-92 | A target chain id of 0 passes through `??` and is then rejected by `!chainId`: the list is empty whatever the connected chain. |
| `Assets.FeeFor` | src/hooks/useAssetList.ts:110 | STOCKS pays the stock fee, CRYPTO the crypto fee, and every other sector the forex fee. |
| `Assets.BuildAsset` | src/hooks/useAssetList.ts:95-148 | A built asset carries its pair's id. Its legs are mirrored: LONG and SHORT; same id, chain, ticker, name, sector and fee; each contract is the checksum of the other leg's sibling; each token describes its leg's contract with 18 decimals. |
| `Assets.FilterNotEmpty` | src/hooks/useAssetList.ts:150 | `.filter(notEmpty)` never yields more values than it is given; `FilterNotEmptyPositions` says which ones. |
| `Assets.Candidates` | src/hooks/useAssetList.ts:94-149 | The `.map` over the conducted pairs gives one entry per pair. An entry is present exactly when its pair is joinable, and a present entry carries its pair's id. |
| `Assets.FilterNotEmptyPositions` | src/hooks/useAssetList.ts:56-60 | `notEmpty` filtering keeps exactly the present entries, in order. The k-th output is the value at the k-th present position. Present positions increase. A position is listed exactly when its entry is present. |
| `Assets.AssetList` | src/hooks/useAssetList.ts:91-151 | Without a non-zero chain id, or without conducted, quote or signature entries for the chain, the result is empty. Every emitted asset is mirrored and its ticker is neither XAG nor XAU. |
| `Assets.KeptExactlyJoinable` | src/hooks/useAssetList.ts:94-150 | The output is the in-order image of the conducted pairs that are kept. The k-th asset has the id of the pair at the k-th kept position. Kept positions increase. A pair is kept exactly when its details exist, its quote exists with both legs, and its ticker is not XAG/XAU. |
| `Assets.AssetListFromSources` | src/hooks/useAssetList.ts:110-142 | Each emitted asset takes ticker, name and sector from the details. Symbols come from `longSymbol`/`shortSymbol`, prices from each quote leg. Contracts are the checksummed raw addresses and siblings the raw opposite addresses. `open` is the truthiness of each leg's signature. The fee is the stock fee for STOCKS, the crypto fee for CRYPTO and the forex fee otherwise. |
| `Assets.EmptyDetailsGiveNoAssets` | src/hooks/useAssetList.ts:92-103 | With an empty details map the result is empty for every chain and every other store. |
| `Assets.SignaturesNeverDropPairs` | src/hooks/useAssetList.ts:97-142 | Replacing the signature store changes nothing but the `open` flags. The same number of assets comes out, and they are equal field by field apart from `open`. |
| `Assets.OneSignedPair` | src/hooks/useAssetList.ts:94-148 | Worked example: one stock pair signed on its long contract only. The result is one asset, long open and short not open, with prices 10 and 9, symbols `lAAA`/`sAAA` and the stock fee on both legs. |
| `AssetViews.SubAssetList` | src/hooks/useAssetList.ts:157-165 | Flattening n assets gives 2n legs. Position 2i holds asset i's long leg and position 2i+1 its short leg. |
| `AssetViews.FlattenedLegs` | src/hooks/useAssetList.ts:160-163 | Over mirrored assets, flattened legs alternate LONG, SHORT. Leg j carries the id of asset j/2. |
| `AssetViews.CompareTickers` | src/hooks/useAssetList.ts:62-70 | `sortAlphabetically` returns -1 exactly when x's ticker is `<` y's, 1 exactly when y's is `<` x's, and 0 exactly when the tickers are equal. |
| `AssetViews.SortByTicker` | src/hooks/useAssetList.ts:172 | `.sort(sortAlphabetically)`: the result is a permutation of the input with no pair out of order for the comparator. |
| `AssetViews.Longs` | src/hooks/useAssetList.ts:172 | `assets.map(asset => asset.long)`: one entry per asset, its long leg, in order. |
| `AssetViews.LongAssetsList` | src/hooks/useAssetList.ts:170-173 | The long list is a permutation of every asset's long leg, sorted non-decreasingly by ticker. |
| `AssetViews.LongAssetsAreLongs` | src/hooks/useAssetList.ts:172 | Over mirrored assets, every leg of the long list has direction LONG. |
| `AssetViews.FindByContract` | src/hooks/useAssetList.ts:179-182 | Gives the index of the first leg whose upper-cased contract equals the upper-cased query, or nothing when no leg matches. |
| `AssetViews.AssetByContract` | src/hooks/useAssetList.ts:175-185 | An absent or empty query gives nothing. Otherwise nothing is returned exactly when no leg matches case-insensitively, and a returned leg is the first leg that matches. |
| `AssetViews.AssetContractMap` | src/hooks/useAssetList.ts:187-190 | The contract list has one entry per leg: the leg's contract, in leg order. |
| `AssetViews.Tokens` | src/hooks/useAssetList.ts:204-207 | The token list has one entry per leg: the leg's token, in leg order. |
| `AssetViews.ListedContractsAreFound` | src/hooks/useAssetList.ts:177-189 | Every non-empty contract in the contract list is found by the lookup, and the leg found has the same contract up to upper-casing. |
| `AssetViews.TokensDescribeContracts` | src/hooks/useAssetList.ts:187-207 | Over the flattened legs of mirrored assets, the i-th token has the i-th contract as its address, 18 decimals and its leg's chain. |
| `AssetViews.TokensFromMap` | src/hooks/useAssetList.ts:192-202 | The dictionary's keys are exactly the legs' contracts. Each contract maps to the token of its last leg. When every token's address is its leg's contract, every entry's token has its own key as address. |

## Left out

- `src/components/App/Markets/Search.tsx`: the fuzzy search is a thin wrapper over Fuse.js scoring, and the selection state belongs to react-select-search. Neither library is part of this model; the rest of the file is styling.
- React machinery: `useMemo` memoisation, `useWeb3React` (the connected chain) and `useAppSelector` (the store). The target and connected chain ids and the store snapshots are parameters instead.
- `getAddress`: EIP-55 checksumming is the arbitrary function `checksum`. Its exception on a malformed address is not modelled: the join is total here.
- `toUpperCase` is the arbitrary function `upper`.
- The fee callback, `toNumber()` and `constructPercentage`: fees are arbitrary real values that the join never computes with. A leg carries its sector's fee value, not a `Percent` object.
- The sushiswap `Token` class is the datatype `Assets.Token` with the five constructor arguments.
- `fetchDetails`'s HTTP request, URL building and `console.log`. Only the normaliser applied to an already-parsed response is modelled.
- Redux Toolkit's `createSlice`/`createAsyncThunk` plumbing and Immer's copy-on-write. The reducers are state transitions of `DetailsSlice` and of `Reduce`.
- The exported constant `Sectors` (reducer.ts line 21): the modelled core does not use it.
- JavaScript objects as dictionaries become Dafny maps. Key insertion order is not modelled, nor are special keys such as `__proto__`. The JSON response is a map, so duplicate keys cannot arise.
- `StringOrder.Less`: JavaScript compares strings by UTF-16 code unit, while the model compares characters. The two differ only for characters outside the Basic Multilingual Plane.
- `AssetViews.LongAssetsList`: states sortedness and permutation but not stability. `Array.prototype.sort` is stable, and the model's insertion sort keeps equal tickers in input order, but no lemma states it.
