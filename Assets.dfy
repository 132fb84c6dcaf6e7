/**
 * The asset join: for one chain, every conducted long/short pair is joined
 * with its quote, its signatures and its symbol details into an `Asset`
 * with two mirrored `SubAsset` legs; pairs whose data is incomplete, and
 * two excluded tickers, are dropped.
 *
 * Address checksumming and the fee callback belong to libraries outside
 * this model: `checksum` is any function on addresses, and the three
 * sector fees are opaque values supplied with the stores.
 */
module Assets {
  import opened Wrappers
  import opened Details

  type ChainId = nat
  type Address = string
  /** A fee as the fee callback reports it: an arbitrary real that the join never computes with. */
  type Fee = real

  datatype Direction = LONG | SHORT

  /** The token descriptor each leg carries. */
  datatype Token = Token(chainId: ChainId, address: Address, decimals: nat, symbol: string, name: string)

  const TokenDecimals: nat := 18

  /** The tickers the join leaves out whatever the data says. */
  const ExcludedTickers: set<string> := {"XAG", "XAU"}

  /** One trading leg of an asset. */
  datatype SubAsset = SubAsset(
    id: string,
    chainId: ChainId,
    ticker: string,
    symbol: string,
    name: string,
    sector: Sector,
    direction: Direction,
    contract: Address,
    sibling: Address,
    price: string,
    fee: Fee,
    open: bool,
    token: Token)

  datatype Asset = Asset(id: string, long: SubAsset, short: SubAsset)

  /** A symbol id registered on a chain with its long and short contracts. */
  datatype ConductedPair = ConductedPair(id: string, long: Address, short: Address)

  datatype LegQuote = LegQuote(price: string)

  /** A quote; either leg may be missing. */
  datatype Quote = Quote(long: Option<LegQuote>, short: Option<LegQuote>)

  datatype SectorFees = SectorFees(stock: Fee, crypto: Fee, forex: Fee)

  /**
   * Snapshots of the four stores the join reads, and the three fees.
   * A signature entry is recorded by its truthiness.
   */
  datatype Stores = Stores(
    conducted: map<ChainId, seq<ConductedPair>>,
    quotes: map<ChainId, map<string, Quote>>,
    signatures: map<ChainId, map<Address, bool>>,
    details: DetailMap,
    fees: SectorFees)

  /** `targetChainId ?? connectedChainId`: the target wins unless it is absent. */
  function ResolveChain(target: Option<ChainId>, connected: Option<ChainId>): (r: Option<ChainId>)
    ensures target.Some? ==> r == target
    ensures target.None? ==> r == connected
  {
    if target.Some? then target else connected
  }

  /** The three stores keyed by chain all have an entry for `chainId`. */
  predicate Loaded(chainId: ChainId, stores: Stores)
  {
    chainId in stores.conducted && chainId in stores.quotes && chainId in stores.signatures
  }

  /** The join's guard passes: a chain id that is present and not 0, with all stores loaded. */
  predicate Ready(chainId: Option<ChainId>, stores: Stores)
  {
    chainId.Some? && chainId.value != 0 && Loaded(chainId.value, stores)
  }

  /** The fee of a sector: stock and crypto have their own, every other sector pays forex. */
  function FeeFor(fees: SectorFees, sector: Sector): (r: Fee)
    ensures sector == STOCKS ==> r == fees.stock
    ensures sector == CRYPTO ==> r == fees.crypto
    ensures sector != STOCKS && sector != CRYPTO ==> r == fees.forex
  {
    if sector == STOCKS then fees.stock
    else if sector == CRYPTO then fees.crypto
    else fees.forex
  }

  /** `!!signatures[address]`: an absent entry is falsy. */
  predicate Truthy(signatures: map<Address, bool>, address: Address)
  {
    address in signatures && signatures[address]
  }

  /** A pair with this id is kept: details and both quote legs exist and the ticker is not excluded. */
  predicate Joinable(id: string, quotes: map<string, Quote>, details: DetailMap)
  {
    && id in details
    && id in quotes
    && quotes[id].long.Some?
    && quotes[id].short.Some?
    && details[id].symbol !in ExcludedTickers
  }

  predicate TokenMatches(leg: SubAsset)
  {
    leg.token == Token(leg.chainId, leg.contract, TokenDecimals, leg.ticker, leg.name)
  }

  /**
   * The invariant of every emitted asset: the legs agree on everything but
   * direction, symbol, price and open flag; each leg's contract is the
   * checksummed form of the other leg's (raw) sibling; each token describes
   * its leg's contract.
   */
  predicate Mirrored(a: Asset, checksum: Address -> Address)
  {
    && a.long.direction == LONG
    && a.short.direction == SHORT
    && a.long.id == a.id
    && a.short.id == a.id
    && a.long.chainId == a.short.chainId
    && a.long.ticker == a.short.ticker
    && a.long.name == a.short.name
    && a.long.sector == a.short.sector
    && a.long.fee == a.short.fee
    && a.long.contract == checksum(a.short.sibling)
    && a.short.contract == checksum(a.long.sibling)
    && TokenMatches(a.long)
    && TokenMatches(a.short)
  }

  /** The `map` callback of the join, for one conducted pair. */
  function BuildAsset(
    chainId: ChainId,
    pair: ConductedPair,
    quotes: map<string, Quote>,
    signatures: map<Address, bool>,
    details: DetailMap,
    fees: SectorFees,
    checksum: Address -> Address): (r: Option<Asset>)
    ensures r.Some? ==> Mirrored(r.value, checksum) && r.value.id == pair.id
  {
    if pair.id !in details || pair.id !in quotes
       || quotes[pair.id].long.None? || quotes[pair.id].short.None? then
      None
    else
      var detail := details[pair.id];
      var quote := quotes[pair.id];
      if detail.symbol in ExcludedTickers then
        None
      else
        var fee := FeeFor(fees, detail.sector);
        var long := SubAsset(
          pair.id, chainId, detail.symbol, detail.longSymbol, detail.name, detail.sector, LONG,
          checksum(pair.long), pair.short, quote.long.value.price, fee, Truthy(signatures, pair.long),
          Token(chainId, checksum(pair.long), TokenDecimals, detail.symbol, detail.name));
        var short := SubAsset(
          pair.id, chainId, detail.symbol, detail.shortSymbol, detail.name, detail.sector, SHORT,
          checksum(pair.short), pair.long, quote.short.value.price, fee, Truthy(signatures, pair.short),
          Token(chainId, checksum(pair.short), TokenDecimals, detail.symbol, detail.name));
        Some(Asset(pair.id, long, short))
  }

  /** `notEmpty` filtering: the present values, in order. */
  function FilterNotEmpty<T>(xs: seq<Option<T>>): (r: seq<T>)
    ensures |r| <= |xs|
    decreases |xs|
  {
    if xs == [] then []
    else
      var init := xs[..|xs| - 1];
      match xs[|xs| - 1]
      case None => FilterNotEmpty(init)
      case Some(x) => FilterNotEmpty(init) + [x]
  }

  /** The positions of `xs` that hold a value, in increasing order. */
  ghost function Present<T>(xs: seq<Option<T>>): seq<nat>
    decreases |xs|
  {
    if xs == [] then []
    else
      var rest := Present(xs[..|xs| - 1]);
      if xs[|xs| - 1].Some? then rest + [|xs| - 1] else rest
  }

  /** `FilterNotEmpty(xs)[k]` is the value at the k-th present position of `xs`. */
  lemma {:induction false} FilterNotEmptyPositions<T>(xs: seq<Option<T>>)
    ensures |FilterNotEmpty(xs)| == |Present(xs)|
    ensures forall k | 0 <= k < |Present(xs)| ::
      Present(xs)[k] < |xs| && xs[Present(xs)[k]] == Some(FilterNotEmpty(xs)[k])
    ensures forall k, l | 0 <= k < l < |Present(xs)| :: Present(xs)[k] < Present(xs)[l]
    ensures forall j | 0 <= j < |xs| :: xs[j].Some? <==> j in Present(xs)
    decreases |xs|
  {
    if xs != [] {
      var n := |xs| - 1;
      var init := xs[..n];
      FilterNotEmptyPositions(init);
      var rest, restIdx := FilterNotEmpty(init), Present(init);
      assert forall j | 0 <= j < n :: xs[j] == init[j];
      assert n !in restIdx;
      if xs[n].Some? {
        AppendPosition(init, rest, restIdx, xs[n].value);
        assert xs == init + [xs[n]];
      } else {
        assert FilterNotEmpty(xs) == rest;
        assert Present(xs) == restIdx;
      }
    }
  }

  /** The step of `FilterNotEmptyPositions` that appends a present entry. */
  lemma AppendPosition<T>(init: seq<Option<T>>, rest: seq<T>, restIdx: seq<nat>, v: T)
    requires |rest| == |restIdx|
    requires forall k | 0 <= k < |restIdx| :: restIdx[k] < |init| && init[restIdx[k]] == Some(rest[k])
    requires forall k, l | 0 <= k < l < |restIdx| :: restIdx[k] < restIdx[l]
    requires forall j | 0 <= j < |init| :: init[j].Some? <==> j in restIdx
    ensures var xs, r, idx := init + [Some(v)], rest + [v], restIdx + [|init|];
      && (forall k | 0 <= k < |idx| :: idx[k] < |xs| && xs[idx[k]] == Some(r[k]))
      && (forall k, l | 0 <= k < l < |idx| :: idx[k] < idx[l])
      && (forall j | 0 <= j < |xs| :: xs[j].Some? <==> j in idx)
  {
    var xs, r, idx := init + [Some(v)], rest + [v], restIdx + [|init|];
    forall j | 0 <= j < |xs| ensures xs[j].Some? <==> j in idx {
      if j < |init| {
        assert xs[j] == init[j];
        assert j in idx <==> j in restIdx;
      }
    }
  }

  /** Present positions depend only on which entries are present. */
  lemma {:induction false} PresentSameShape<T, U>(xs: seq<Option<T>>, ys: seq<Option<U>>)
    requires |xs| == |ys|
    requires forall j | 0 <= j < |xs| :: xs[j].Some? == ys[j].Some?
    ensures Present(xs) == Present(ys)
    decreases |xs|
  {
    if xs != [] {
      var n := |xs| - 1;
      PresentSameShape(xs[..n], ys[..n]);
    }
  }

  /** Every `notEmpty` filter of all-absent entries is empty. */
  lemma FilterNotEmptyAllAbsent<T>(xs: seq<Option<T>>)
    requires forall j | 0 <= j < |xs| :: xs[j].None?
    ensures FilterNotEmpty(xs) == []
  {
    FilterNotEmptyPositions(xs);
  }

  /** The join's callback applied to every conducted pair of the chain. */
  function Candidates(chainId: ChainId, stores: Stores, checksum: Address -> Address): (r: seq<Option<Asset>>)
    requires Loaded(chainId, stores)
    ensures |r| == |stores.conducted[chainId]|
    ensures forall i | 0 <= i < |r| :: r[i].Some? ==> r[i].value.id == stores.conducted[chainId][i].id
    ensures forall i | 0 <= i < |r| ::
      r[i].Some? <==> Joinable(stores.conducted[chainId][i].id, stores.quotes[chainId], stores.details)
  {
    var pairs := stores.conducted[chainId];
    seq(|pairs|, i requires 0 <= i < |pairs| =>
      BuildAsset(chainId, pairs[i], stores.quotes[chainId], stores.signatures[chainId],
                 stores.details, stores.fees, checksum))
  }

  /** `useAssetList`: the joined assets of a chain, in the order of its conducted pairs. */
  function AssetList(chainId: Option<ChainId>, stores: Stores, checksum: Address -> Address): (r: seq<Asset>)
    ensures !Ready(chainId, stores) ==> r == []
    ensures forall a | a in r :: Mirrored(a, checksum) && a.long.ticker !in ExcludedTickers
  {
    if !Ready(chainId, stores) then []
    else
      var candidates := Candidates(chainId.value, stores, checksum);
      FilterNotEmptyPositions(candidates);
      FilterNotEmpty(candidates)
  }

  /** The hook as called: the target chain if given, else the connected one, then the join. */
  function UseAssetList(target: Option<ChainId>, connected: Option<ChainId>, stores: Stores, checksum: Address -> Address): (r: seq<Asset>)
    ensures forall a | a in r :: Mirrored(a, checksum)
  {
    AssetList(ResolveChain(target, connected), stores, checksum)
  }

  /** A given target chain makes the connected chain irrelevant. */
  lemma TargetOverridesConnected(target: ChainId, connected: Option<ChainId>, other: Option<ChainId>, stores: Stores, checksum: Address -> Address)
    ensures UseAssetList(Some(target), connected, stores, checksum) == UseAssetList(Some(target), other, stores, checksum)
    ensures UseAssetList(Some(target), connected, stores, checksum) == AssetList(Some(target), stores, checksum)
  {
  }

  /** Without a target the connected chain's assets are listed. */
  lemma AbsentTargetUsesConnected(connected: Option<ChainId>, stores: Stores, checksum: Address -> Address)
    ensures UseAssetList(None, connected, stores, checksum) == AssetList(connected, stores, checksum)
  {
  }

  /**
   * `??` passes a target of 0 through, and the guard then rejects it: the
   * list is empty even when the connected chain is loaded.
   */
  lemma ZeroTargetListsNothing(connected: Option<ChainId>, stores: Stores, checksum: Address -> Address)
    ensures UseAssetList(Some(0), connected, stores, checksum) == []
  {
  }

  /** The positions within the conducted list of the pairs the join keeps. */
  ghost function KeptPositions(chainId: ChainId, stores: Stores, checksum: Address -> Address): seq<nat>
    requires Loaded(chainId, stores)
  {
    Present(Candidates(chainId, stores, checksum))
  }

  /**
   * The output is the in-order image of exactly the joinable pairs: its
   * k-th asset comes from the pair at the k-th kept position, kept positions
   * increase, and a position is kept exactly when its pair is joinable.
   */
  lemma KeptExactlyJoinable(chainId: ChainId, stores: Stores, checksum: Address -> Address)
    requires Ready(Some(chainId), stores)
    ensures var pairs := stores.conducted[chainId];
            var r := AssetList(Some(chainId), stores, checksum);
            var kept := KeptPositions(chainId, stores, checksum);
            && |r| == |kept|
            && (forall k | 0 <= k < |kept| ::
                  && kept[k] < |pairs|
                  && r[k].id == pairs[kept[k]].id
                  && Joinable(pairs[kept[k]].id, stores.quotes[chainId], stores.details))
            && (forall k, l | 0 <= k < l < |kept| :: kept[k] < kept[l])
            && (forall j | 0 <= j < |pairs| ::
                  j in kept <==> Joinable(pairs[j].id, stores.quotes[chainId], stores.details))
  {
    FilterNotEmptyPositions(Candidates(chainId, stores, checksum));
  }

  /**
   * Where each field of an emitted asset comes from: the pair's raw
   * addresses, its details, its quote, the signatures and the sector fee.
   */
  ghost predicate EmittedFrom(a: Asset, chainId: ChainId, pair: ConductedPair, stores: Stores, checksum: Address -> Address)
    requires Loaded(chainId, stores)
    requires Joinable(pair.id, stores.quotes[chainId], stores.details)
  {
    var detail := stores.details[pair.id];
    var quote := stores.quotes[chainId][pair.id];
    var signatures := stores.signatures[chainId];
    && a.id == pair.id
    && a.long.chainId == chainId
    && a.long.ticker == detail.symbol
    && a.long.name == detail.name
    && a.long.sector == detail.sector
    && a.long.symbol == detail.longSymbol
    && a.short.symbol == detail.shortSymbol
    && a.long.price == quote.long.value.price
    && a.short.price == quote.short.value.price
    && a.long.contract == checksum(pair.long)
    && a.long.sibling == pair.short
    && a.short.contract == checksum(pair.short)
    && a.short.sibling == pair.long
    && a.long.open == Truthy(signatures, pair.long)
    && a.short.open == Truthy(signatures, pair.short)
    && (detail.sector == STOCKS ==> a.long.fee == stores.fees.stock)
    && (detail.sector == CRYPTO ==> a.long.fee == stores.fees.crypto)
    && (detail.sector != STOCKS && detail.sector != CRYPTO ==> a.long.fee == stores.fees.forex)
  }

  /** Every emitted asset is built from its pair's data as `EmittedFrom` lays out, and its legs mirror each other. */
  lemma AssetListFromSources(chainId: ChainId, stores: Stores, checksum: Address -> Address)
    requires Ready(Some(chainId), stores)
    ensures var pairs := stores.conducted[chainId];
            var r := AssetList(Some(chainId), stores, checksum);
            var kept := KeptPositions(chainId, stores, checksum);
            && |r| == |kept|
            && forall k | 0 <= k < |r| ::
                 && kept[k] < |pairs|
                 && Joinable(pairs[kept[k]].id, stores.quotes[chainId], stores.details)
                 && EmittedFrom(r[k], chainId, pairs[kept[k]], stores, checksum)
                 && Mirrored(r[k], checksum)
  {
    FilterNotEmptyPositions(Candidates(chainId, stores, checksum));
  }

  /** With no details loaded every pair is dropped. */
  lemma EmptyDetailsGiveNoAssets(chainId: Option<ChainId>, stores: Stores, checksum: Address -> Address)
    requires stores.details == map[]
    ensures AssetList(chainId, stores, checksum) == []
  {
    if Ready(chainId, stores) {
      FilterNotEmptyAllAbsent(Candidates(chainId.value, stores, checksum));
    }
  }

  /**
   * Signatures decide only the open flags: two stores that differ only in
   * their signatures (both loaded for the chain) yield the same assets up
   * to `open`.
   */
  lemma SignaturesNeverDropPairs(chainId: ChainId, stores: Stores, signatures: map<ChainId, map<Address, bool>>, checksum: Address -> Address)
    requires Ready(Some(chainId), stores)
    requires chainId in signatures
    ensures var other := stores.(signatures := signatures);
            var r := AssetList(Some(chainId), stores, checksum);
            var s := AssetList(Some(chainId), other, checksum);
            && |r| == |s|
            && forall k | 0 <= k < |r| ::
                 r[k].(long := r[k].long.(open := s[k].long.open), short := r[k].short.(open := s[k].short.open)) == s[k]
  {
    var other := stores.(signatures := signatures);
    var xs := Candidates(chainId, stores, checksum);
    var ys := Candidates(chainId, other, checksum);
    PresentSameShape(xs, ys);
    FilterNotEmptyPositions(xs);
    FilterNotEmptyPositions(ys);
  }

  /**
   * One registered pair with a signature on its long contract only: one
   * asset whose long leg is open and whose short leg is not, each leg with
   * its own price and both with the stock fee.
   */
  lemma OneSignedPair(checksum: Address -> Address)
    ensures var stores := Stores(
              map[1 := [ConductedPair("A", "0x1", "0x2")]],
              map[1 := map["A" := Quote(Some(LegQuote("10")), Some(LegQuote("9")))]],
              map[1 := map["0x1" := true]],
              map["A" := Detail("Asset A", STOCKS, "AAA", "sAAA", "lAAA")],
              SectorFees(1.0, 2.0, 3.0));
            var r := AssetList(Some(1), stores, checksum);
            && |r| == 1
            && r[0].long.open && !r[0].short.open
            && r[0].long.price == "10" && r[0].short.price == "9"
            && r[0].long.symbol == "lAAA" && r[0].short.symbol == "sAAA"
            && r[0].long.fee == 1.0 && r[0].short.fee == 1.0
  {
    var stores := Stores(
      map[1 := [ConductedPair("A", "0x1", "0x2")]],
      map[1 := map["A" := Quote(Some(LegQuote("10")), Some(LegQuote("9")))]],
      map[1 := map["0x1" := true]],
      map["A" := Detail("Asset A", STOCKS, "AAA", "sAAA", "lAAA")],
      SectorFees(1.0, 2.0, 3.0));
    var candidates := Candidates(1, stores, checksum);
    assert "0x2" != "0x1";
    assert candidates[0].Some?;
    assert FilterNotEmpty(candidates) == FilterNotEmpty(candidates[..0]) + [candidates[0].value];
  }
}
