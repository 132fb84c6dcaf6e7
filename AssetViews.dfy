/**
 * The accessors derived from the joined asset list: the flattened legs,
 * the long legs sorted by ticker, lookup by contract, the contract list,
 * the contract-to-token dictionary and the token list.
 */
module AssetViews {
  import opened Wrappers
  import opened Details
  import opened StringOrder
  import opened Assets

  /** `legs` lists the long then the short leg of each asset, in order. */
  ghost predicate Flattening(assets: seq<Asset>, legs: seq<SubAsset>)
  {
    && |legs| == 2 * |assets|
    && forall i | 0 <= i < |assets| :: legs[2 * i] == assets[i].long && legs[2 * i + 1] == assets[i].short
  }

  /** `useSubAssetList`: the `reduce` that pushes both legs of every asset onto an accumulator. */
  method SubAssetList(assets: seq<Asset>) returns (acc: seq<SubAsset>)
    ensures Flattening(assets, acc)
  {
    acc := [];
    for i := 0 to |assets|
      invariant |acc| == 2 * i
      invariant forall k | 0 <= k < i :: acc[2 * k] == assets[k].long && acc[2 * k + 1] == assets[k].short
    {
      acc := acc + [assets[i].long, assets[i].short];
    }
  }

  /** The legs of mirrored assets alternate long, short and carry their asset's id. */
  lemma FlattenedLegs(assets: seq<Asset>, legs: seq<SubAsset>, checksum: Address -> Address)
    requires Flattening(assets, legs)
    requires forall a | a in assets :: Mirrored(a, checksum)
    ensures forall j | 0 <= j < |legs| ::
      && legs[j].id == assets[j / 2].id
      && legs[j].direction == (if j % 2 == 0 then LONG else SHORT)
  {
    forall j | 0 <= j < |legs|
      ensures legs[j].id == assets[j / 2].id
      ensures legs[j].direction == (if j % 2 == 0 then LONG else SHORT)
    {
      var i := j / 2;
      assert assets[i] in assets;
      if j % 2 == 0 {
        assert j == 2 * i;
      } else {
        assert j == 2 * i + 1;
      }
    }
  }

  /** `sortAlphabetically`: the comparator on tickers, -1, 1 or 0. */
  function CompareTickers(x: SubAsset, y: SubAsset): (r: int)
    ensures r == -1 || r == 0 || r == 1
    ensures r == -1 <==> Less(x.ticker, y.ticker)
    ensures r == 1 <==> Less(y.ticker, x.ticker)
    ensures r == 0 <==> x.ticker == y.ticker
  {
    LessTrichotomous(x.ticker, y.ticker);
    LessIrreflexive(x.ticker);
    if Less(x.ticker, y.ticker) then
      LessAsymmetric(x.ticker, y.ticker);
      -1
    else if Less(y.ticker, x.ticker) then 1
    else 0
  }

  /** `x` may come before `y`: the comparator does not put `y` first. */
  predicate InOrder(x: SubAsset, y: SubAsset)
  {
    CompareTickers(x, y) <= 0
  }

  lemma InOrderTransitive(x: SubAsset, y: SubAsset, z: SubAsset)
    requires InOrder(x, y) && InOrder(y, z)
    ensures InOrder(x, z)
  {
    NotLessTransitive(x.ticker, y.ticker, z.ticker);
  }

  /** Non-decreasing by ticker: no pair is out of order for the comparator. */
  ghost predicate SortedByTicker(s: seq<SubAsset>)
  {
    forall i, j | 0 <= i < j < |s| :: InOrder(s[i], s[j])
  }

  /** `x` may come before every element of `s`. */
  ghost predicate AtMost(x: SubAsset, s: seq<SubAsset>)
  {
    forall k | 0 <= k < |s| :: InOrder(x, s[k])
  }

  /** Inserts `x` before the first element that is not smaller than it. */
  function Insert(x: SubAsset, s: seq<SubAsset>): seq<SubAsset>
    decreases |s|
  {
    if s == [] then [x]
    else if CompareTickers(x, s[0]) <= 0 then [x] + s
    else [s[0]] + Insert(x, s[1..])
  }

  /** Insertion sort with the comparator; an element goes before the equal ones it came before. */
  function SortByTicker(s: seq<SubAsset>): (r: seq<SubAsset>)
    ensures SortedByTicker(r)
    ensures multiset(r) == multiset(s)
    decreases |s|
  {
    if s == [] then []
    else
      var sortedTail := SortByTicker(s[1..]);
      InsertKeepsSorted(s[0], sortedTail);
      SortStepPermutes(s, sortedTail);
      Insert(s[0], sortedTail)
  }

  lemma ConsSorted(x: SubAsset, s: seq<SubAsset>)
    requires SortedByTicker(s) && AtMost(x, s)
    ensures SortedByTicker([x] + s)
  {
    var r := [x] + s;
    forall i, j | 0 <= i < j < |r| ensures InOrder(r[i], r[j]) {
      if i > 0 {
        assert r[i] == s[i - 1] && r[j] == s[j - 1];
      } else {
        assert r[j] == s[j - 1];
      }
    }
  }

  lemma TailSorted(s: seq<SubAsset>)
    requires s != [] && SortedByTicker(s)
    ensures SortedByTicker(s[1..]) && AtMost(s[0], s[1..])
  {
    forall i, j | 0 <= i < j < |s[1..]| ensures InOrder(s[1..][i], s[1..][j]) {
      assert s[1..][i] == s[i + 1] && s[1..][j] == s[j + 1];
    }
    forall k | 0 <= k < |s[1..]| ensures InOrder(s[0], s[1..][k]) {
      assert s[1..][k] == s[k + 1];
    }
  }

  /** A lower bound of `x` and of `s` is a lower bound of `Insert(x, s)`. */
  lemma {:induction false} InsertAtMost(y: SubAsset, x: SubAsset, s: seq<SubAsset>)
    requires InOrder(y, x) && AtMost(y, s)
    ensures AtMost(y, Insert(x, s))
    decreases |s|
  {
    if s != [] && CompareTickers(x, s[0]) > 0 {
      assert AtMost(y, s[1..]) by {
        forall k | 0 <= k < |s[1..]| ensures InOrder(y, s[1..][k]) {
          assert s[1..][k] == s[k + 1];
        }
      }
      InsertAtMost(y, x, s[1..]);
      var r := Insert(x, s);
      forall k | 0 <= k < |r| ensures InOrder(y, r[k]) {
        if k > 0 {
          assert r[k] == Insert(x, s[1..])[k - 1];
        }
      }
    } else if s != [] {
      var r := Insert(x, s);
      forall k | 0 <= k < |r| ensures InOrder(y, r[k]) {
        if k > 0 {
          assert r[k] == s[k - 1];
        }
      }
    }
  }

  lemma {:induction false} InsertPermutes(x: SubAsset, s: seq<SubAsset>)
    ensures multiset(Insert(x, s)) == multiset(s) + multiset{x}
    decreases |s|
  {
    if s != [] {
      assert s == [s[0]] + s[1..];
      if CompareTickers(x, s[0]) > 0 {
        InsertPermutes(x, s[1..]);
      }
    }
  }

  lemma {:induction false} InsertKeepsSorted(x: SubAsset, s: seq<SubAsset>)
    requires SortedByTicker(s)
    ensures SortedByTicker(Insert(x, s))
    decreases |s|
  {
    if s == [] {
    } else {
      TailSorted(s);
      if CompareTickers(x, s[0]) <= 0 {
        forall k | 0 <= k < |s| ensures InOrder(x, s[k]) {
          if k > 0 {
            assert s[k] == s[1..][k - 1];
            InOrderTransitive(x, s[0], s[k]);
          }
        }
        ConsSorted(x, s);
      } else {
        LessAsymmetric(s[0].ticker, x.ticker);
        InsertKeepsSorted(x, s[1..]);
        InsertAtMost(s[0], x, s[1..]);
        ConsSorted(s[0], Insert(x, s[1..]));
      }
    }
  }

  /** Inserting the head into a permutation of the tail gives a permutation of the whole. */
  lemma SortStepPermutes(s: seq<SubAsset>, sortedTail: seq<SubAsset>)
    requires s != [] && multiset(sortedTail) == multiset(s[1..])
    ensures multiset(Insert(s[0], sortedTail)) == multiset(s)
  {
    InsertPermutes(s[0], sortedTail);
    assert s == [s[0]] + s[1..];
  }

  /** `assets.map(asset => asset.long)`. */
  function Longs(assets: seq<Asset>): (r: seq<SubAsset>)
    ensures |r| == |assets|
    ensures forall i | 0 <= i < |assets| :: r[i] == assets[i].long
  {
    seq(|assets|, i requires 0 <= i < |assets| => assets[i].long)
  }

  /** `useLongAssetsList`: the long legs, sorted by ticker. */
  function LongAssetsList(assets: seq<Asset>): (r: seq<SubAsset>)
    ensures |r| == |assets|
    ensures SortedByTicker(r)
    ensures multiset(r) == multiset(Longs(assets))
  {
    var longs := Longs(assets);
    assert |multiset(SortByTicker(longs))| == |longs|;
    SortByTicker(longs)
  }

  /** Every leg of the long list is a long leg of some mirrored asset. */
  lemma LongAssetsAreLongs(assets: seq<Asset>, checksum: Address -> Address)
    requires forall a | a in assets :: Mirrored(a, checksum)
    ensures forall x | x in LongAssetsList(assets) :: x.direction == LONG
  {
    forall x | x in LongAssetsList(assets) ensures x.direction == LONG {
      assert x in multiset(Longs(assets));
      var i :| 0 <= i < |assets| && Longs(assets)[i] == x;
      assert assets[i] in assets;
    }
  }

  /** Case-insensitive equality of two addresses under `upper`. */
  predicate SameAddress(a: Address, b: Address, upper: string -> string)
  {
    upper(a) == upper(b)
  }

  /** The index of the first leg whose contract matches `query`, if any. */
  function FindByContract(legs: seq<SubAsset>, query: Address, upper: string -> string): (r: Option<nat>)
    ensures r.Some? ==> r.value < |legs| && SameAddress(legs[r.value].contract, query, upper)
    ensures r.Some? ==> forall j | 0 <= j < r.value :: !SameAddress(legs[j].contract, query, upper)
    ensures r.None? ==> forall j | 0 <= j < |legs| :: !SameAddress(legs[j].contract, query, upper)
    decreases |legs|
  {
    if legs == [] then None
    else if SameAddress(legs[0].contract, query, upper) then Some(0)
    else
      match FindByContract(legs[1..], query, upper)
      case None => None
      case Some(i) => Some(i + 1)
  }

  /**
   * `useAssetByContract`: nothing for an absent or empty query; otherwise
   * the first leg whose contract matches case-insensitively, if any.
   */
  function AssetByContract(contract: Option<Address>, legs: seq<SubAsset>, upper: string -> string): (r: Option<SubAsset>)
    ensures contract.None? || contract.value == "" ==> r.None?
    ensures contract.Some? && contract.value != "" ==>
      (r.None? <==> forall j | 0 <= j < |legs| :: !SameAddress(legs[j].contract, contract.value, upper))
    ensures r.Some? ==> exists i | 0 <= i < |legs| ::
      && legs[i] == r.value
      && SameAddress(legs[i].contract, contract.value, upper)
      && forall j | 0 <= j < i :: !SameAddress(legs[j].contract, contract.value, upper)
  {
    if contract.None? || contract.value == "" then None
    else
      match FindByContract(legs, contract.value, upper)
      case None => None
      case Some(i) => Some(legs[i])
  }

  /** `useAssetContractMap`: the contract of every leg, in order. */
  function AssetContractMap(legs: seq<SubAsset>): (r: seq<Address>)
    ensures |r| == |legs|
    ensures forall i | 0 <= i < |legs| :: r[i] == legs[i].contract
  {
    seq(|legs|, i requires 0 <= i < |legs| => legs[i].contract)
  }

  /** `useTokens`: the token of every leg, in order. */
  function Tokens(legs: seq<SubAsset>): (r: seq<Token>)
    ensures |r| == |legs|
    ensures forall i | 0 <= i < |legs| :: r[i] == legs[i].token
  {
    seq(|legs|, i requires 0 <= i < |legs| => legs[i].token)
  }

  /** Every non-empty contract in the contract list is found again by the lookup. */
  lemma ListedContractsAreFound(legs: seq<SubAsset>, upper: string -> string)
    ensures forall i | 0 <= i < |legs| && AssetContractMap(legs)[i] != "" ::
      && AssetByContract(Some(AssetContractMap(legs)[i]), legs, upper).Some?
      && SameAddress(AssetByContract(Some(AssetContractMap(legs)[i]), legs, upper).value.contract, legs[i].contract, upper)
  {
    forall i | 0 <= i < |legs| && AssetContractMap(legs)[i] != ""
      ensures AssetByContract(Some(AssetContractMap(legs)[i]), legs, upper).Some?
    {
      assert SameAddress(legs[i].contract, AssetContractMap(legs)[i], upper);
    }
  }

  /** Over the legs of mirrored assets the token list describes the contract list, position by position. */
  lemma TokensDescribeContracts(assets: seq<Asset>, legs: seq<SubAsset>, checksum: Address -> Address)
    requires Flattening(assets, legs)
    requires forall a | a in assets :: Mirrored(a, checksum)
    ensures forall j | 0 <= j < |legs| ::
      && Tokens(legs)[j].address == AssetContractMap(legs)[j]
      && Tokens(legs)[j].decimals == TokenDecimals
      && Tokens(legs)[j].chainId == legs[j].chainId
  {
    forall j | 0 <= j < |legs|
      ensures TokenMatches(legs[j])
    {
      var i := j / 2;
      assert Mirrored(assets[i], checksum) by { assert assets[i] in assets; }
      if j % 2 == 0 { assert j == 2 * i; } else { assert j == 2 * i + 1; }
    }
  }

  /** No leg after `i` and before `end` has the same contract as leg `i`. */
  predicate LastBefore(legs: seq<SubAsset>, i: nat, end: nat)
    requires i < end <= |legs|
  {
    forall j | i < j < end :: legs[j].contract != legs[i].contract
  }

  /** Some leg before `end` has contract `c`. */
  predicate ContractBefore(legs: seq<SubAsset>, c: Address, end: nat)
    requires end <= |legs|
  {
    exists i | 0 <= i < end :: legs[i].contract == c
  }

  /** The keys of `acc` are the contracts of the first `k` legs. */
  ghost predicate KeysUpTo(acc: map<Address, Token>, legs: seq<SubAsset>, k: nat)
    requires k <= |legs|
  {
    forall c :: c in acc <==> ContractBefore(legs, c, k)
  }

  /** Each contract among the first `k` legs maps to the token of its last such leg. */
  ghost predicate TokensUpTo(acc: map<Address, Token>, legs: seq<SubAsset>, k: nat)
    requires k <= |legs|
  {
    forall i | 0 <= i < k && LastBefore(legs, i, k) ::
      legs[i].contract in acc && acc[legs[i].contract] == legs[i].token
  }

  lemma KeysStep(acc: map<Address, Token>, legs: seq<SubAsset>, k: nat)
    requires k < |legs| && KeysUpTo(acc, legs, k)
    ensures KeysUpTo(acc[legs[k].contract := legs[k].token], legs, k + 1)
  {
    var next := acc[legs[k].contract := legs[k].token];
    forall c
      ensures c in next <==> ContractBefore(legs, c, k + 1)
    {
      if c == legs[k].contract {
        assert legs[k].contract == c;
      } else {
        assert c in next <==> c in acc;
        assert ContractBefore(legs, c, k + 1) ==> ContractBefore(legs, c, k);
      }
    }
  }

  lemma TokensStep(acc: map<Address, Token>, legs: seq<SubAsset>, k: nat)
    requires k < |legs| && TokensUpTo(acc, legs, k)
    ensures TokensUpTo(acc[legs[k].contract := legs[k].token], legs, k + 1)
  {
    var next := acc[legs[k].contract := legs[k].token];
    forall i | 0 <= i < k + 1 && LastBefore(legs, i, k + 1)
      ensures legs[i].contract in next && next[legs[i].contract] == legs[i].token
    {
      if i < k {
        assert legs[k].contract != legs[i].contract;
        assert LastBefore(legs, i, k);
      }
    }
  }

  /**
   * `useTokensFromMap`: the dictionary `acc[leg.contract] = leg.token`
   * written leg by leg, so a repeated contract keeps its last token.
   */
  method TokensFromMap(legs: seq<SubAsset>) returns (acc: map<Address, Token>)
    ensures forall c :: c in acc <==> ContractBefore(legs, c, |legs|)
    ensures forall i | 0 <= i < |legs| && LastBefore(legs, i, |legs|) ::
      legs[i].contract in acc && acc[legs[i].contract] == legs[i].token
    ensures (forall i | 0 <= i < |legs| :: legs[i].token.address == legs[i].contract) ==>
      forall c | c in acc :: acc[c].address == c
  {
    acc := map[];
    ghost var describe := forall i | 0 <= i < |legs| :: legs[i].token.address == legs[i].contract;
    for k := 0 to |legs|
      invariant KeysUpTo(acc, legs, k) && TokensUpTo(acc, legs, k)
      invariant describe ==> forall c | c in acc :: acc[c].address == c
    {
      KeysStep(acc, legs, k);
      TokensStep(acc, legs, k);
      acc := acc[legs[k].contract := legs[k].token];
    }
  }
}
