/**
 * NFT holdings: raw asset records are grouped per collection (the asset
 * identifier's text before `::`), in first-seen order, counting the items and
 * keeping the token ids in provider order; the first one represents the group.
 */
module Nfts {
  import opened Wrappers
  import opened Text
  import opened Dictionaries

  /** A raw NFT record: its asset identifier and its already parsed token id. */
  datatype RawNft = RawNft(assetIdentifier: Option<string>, tokenId: int)

  /** One value of the grouping dictionary, with its key `id`. */
  datatype CollectionEntry = CollectionEntry(id: string, name: string, count: nat, tokenIds: seq<int>)

  datatype NftHolding = NftHolding(collection: string, collectionName: string, tokenId: int, count: nat)

  /** The number of NFTs a holding reports. */
  function HoldingCount(n: NftHolding): int
  {
    n.count
  }

  /** The placeholder for a missing collection key or name. */
  const Unknown: string := "Unknown"

  /** `asset_identifier?.split('::')[0] || 'Unknown'`. */
  function CollectionId(n: RawNft): (id: string)
    ensures id != ""
    ensures n.assetIdentifier.Some? && BeforeDoubleColon(n.assetIdentifier.value) != ""
            ==> id == BeforeDoubleColon(n.assetIdentifier.value)
    ensures n.assetIdentifier.None? || BeforeDoubleColon(n.assetIdentifier.value) == ""
            ==> id == Unknown
  {
    match n.assetIdentifier
    case None => Unknown
    case Some(a) => OrDefault(Some(BeforeDoubleColon(a)), Unknown)
  }

  /** `id.split('.').pop() || 'Unknown'`. */
  function CollectionName(id: string): (name: string)
    ensures name != "" && '.' !in name
    ensures LastSegment(id, '.') != "" ==> name == LastSegment(id, '.')
    ensures LastSegment(id, '.') == "" ==> name == Unknown
  {
    OrDefault(Some(LastSegment(id, '.')), Unknown)
  }

  /** The key of a grouping-dictionary entry. */
  function EntryKey(e: CollectionEntry): string
  {
    e.id
  }

  /** The number of records of a grouping-dictionary entry. */
  function EntryCount(e: CollectionEntry): int
  {
    e.count
  }

  /** The entry a collection starts with when its first record is seen. */
  function NewEntry(n: RawNft): CollectionEntry
  {
    CollectionEntry(CollectionId(n), CollectionName(CollectionId(n)), 1, [n.tokenId])
  }

  /** `count++` and `tokenIds.push(tokenId)` on an existing entry. */
  function Bump(e: CollectionEntry, n: RawNft): CollectionEntry
  {
    e.(count := e.count + 1, tokenIds := e.tokenIds + [n.tokenId])
  }

  /** One step of the grouping loop. */
  function AddNft(groups: seq<CollectionEntry>, n: RawNft): seq<CollectionEntry>
  {
    var k := IndexOf(groups, EntryKey, CollectionId(n));
    if k < 0 then groups + [NewEntry(n)] else groups[k := Bump(groups[k], n)]
  }

  /** The grouping dictionary after the loop has seen `nfts`. */
  function Group(nfts: seq<RawNft>): seq<CollectionEntry>
  {
    if nfts == [] then [] else AddNft(Group(nfts[..|nfts| - 1]), nfts[|nfts| - 1])
  }

  // ---- independent reference definitions ----

  /** The distinct collection ids of `nfts`, in order of first appearance. */
  function SeenOrder(nfts: seq<RawNft>): seq<string>
  {
    if nfts == [] then []
    else
      var ids := SeenOrder(nfts[..|nfts| - 1]);
      var id := CollectionId(nfts[|nfts| - 1]);
      if id in ids then ids else ids + [id]
  }

  /** The token ids of the records of collection `id`, in provider order. */
  function IdsOf(nfts: seq<RawNft>, id: string): seq<int>
  {
    if nfts == [] then []
    else IdsOf(nfts[..|nfts| - 1], id)
         + (if CollectionId(nfts[|nfts| - 1]) == id then [nfts[|nfts| - 1].tokenId] else [])
  }

  /** What the grouping dictionary holds after `nfts`, entry by entry. */
  ghost predicate GroupedAs(groups: seq<CollectionEntry>, nfts: seq<RawNft>)
  {
    && |groups| == |SeenOrder(nfts)|
    && (forall k :: 0 <= k < |groups| ==> groups[k].id == SeenOrder(nfts)[k])
    && (forall k :: 0 <= k < |groups| ==>
          && groups[k].tokenIds == IdsOf(nfts, groups[k].id)
          && groups[k].count == |groups[k].tokenIds| > 0
          && groups[k].name == CollectionName(groups[k].id))
    && SumOf(groups, EntryCount) == |nfts|
  }

  lemma {:induction false} SeenOrderDistinct(nfts: seq<RawNft>)
    ensures forall i, j :: 0 <= i < j < |SeenOrder(nfts)| ==> SeenOrder(nfts)[i] != SeenOrder(nfts)[j]
  {
    if nfts != [] {
      SeenOrderDistinct(nfts[..|nfts| - 1]);
    }
  }

  lemma {:induction false} IdsOfEmptyUnlessSeen(nfts: seq<RawNft>, id: string)
    requires id !in SeenOrder(nfts)
    ensures IdsOf(nfts, id) == []
  {
    if nfts != [] {
      var init := nfts[..|nfts| - 1];
      assert forall x :: x in SeenOrder(init) ==> x in SeenOrder(nfts);
      IdsOfEmptyUnlessSeen(init, id);
    }
  }

  /** The entries of the grouping dictionary are keyed by the distinct collection ids, in first-seen order. */
  lemma {:induction false} GroupKeys(nfts: seq<RawNft>)
    ensures |Group(nfts)| == |SeenOrder(nfts)|
    ensures forall k :: 0 <= k < |Group(nfts)| ==> Group(nfts)[k].id == SeenOrder(nfts)[k]
  {
    if nfts != [] {
      var init := nfts[..|nfts| - 1];
      GroupKeys(init);
      var id := CollectionId(nfts[|nfts| - 1]);
      assert IndexOf(Group(init), EntryKey, id) < 0 <==> id !in SeenOrder(init);
    }
  }

  /** The entry a new collection id opens holds just that record. */
  lemma NewEntryAt(nfts: seq<RawNft>)
    requires nfts != [] && IndexOf(Group(nfts[..|nfts| - 1]), EntryKey, CollectionId(nfts[|nfts| - 1])) < 0
    ensures var g := Group(nfts[..|nfts| - 1]); var e := Group(nfts)[|g|];
            && e.tokenIds == IdsOf(nfts, e.id) && e.count == |e.tokenIds| > 0 && e.name == CollectionName(e.id)
  {
    var init, last := nfts[..|nfts| - 1], nfts[|nfts| - 1];
    GroupKeys(init);
    IdsOfEmptyUnlessSeen(init, CollectionId(last));
    assert Group(nfts) == Group(init) + [NewEntry(last)];
  }

  /** Each entry holds its collection's token ids in provider order, and counts them. */
  lemma {:induction false} GroupEntryAt(nfts: seq<RawNft>, j: nat)
    requires j < |Group(nfts)|
    ensures Group(nfts)[j].tokenIds == IdsOf(nfts, Group(nfts)[j].id)
    ensures Group(nfts)[j].count == |Group(nfts)[j].tokenIds| > 0
    ensures Group(nfts)[j].name == CollectionName(Group(nfts)[j].id)
  {
    var init, last := nfts[..|nfts| - 1], nfts[|nfts| - 1];
    var g := Group(init);
    var id := CollectionId(last);
    var k := IndexOf(g, EntryKey, id);
    var g' := Group(nfts);
    assert g' == AddNft(g, last);
    if k < 0 && j == |g| {
      NewEntryAt(nfts);
    } else if j == k {
      GroupEntryAt(init, j);
    } else {
      GroupEntryAt(init, j);
      GroupKeys(init);
      SeenOrderDistinct(init);
      assert g'[j] == g[j];
    }
  }

  lemma GroupEntries(nfts: seq<RawNft>)
    ensures forall k :: 0 <= k < |Group(nfts)| ==>
              && Group(nfts)[k].tokenIds == IdsOf(nfts, Group(nfts)[k].id)
              && Group(nfts)[k].count == |Group(nfts)[k].tokenIds| > 0
              && Group(nfts)[k].name == CollectionName(Group(nfts)[k].id)
  {
    forall k | 0 <= k < |Group(nfts)|
      ensures Group(nfts)[k].tokenIds == IdsOf(nfts, Group(nfts)[k].id)
      ensures Group(nfts)[k].count == |Group(nfts)[k].tokenIds| > 0
      ensures Group(nfts)[k].name == CollectionName(Group(nfts)[k].id)
    {
      GroupEntryAt(nfts, k);
    }
  }

  /** Every record is counted exactly once. */
  lemma {:induction false} GroupCountsAll(nfts: seq<RawNft>)
    ensures SumOf(Group(nfts), EntryCount) == |nfts|
  {
    if nfts != [] {
      var init, last := nfts[..|nfts| - 1], nfts[|nfts| - 1];
      GroupCountsAll(init);
      var g := Group(init);
      var k := IndexOf(g, EntryKey, CollectionId(last));
      if k >= 0 {
        SumOfUpdate(g, EntryCount, k, Group(nfts)[k]);
      } else {
        assert (g + [Group(nfts)[|g|]])[..|g|] == g;
      }
    }
  }

  /** The grouping loop builds exactly the reference grouping. */
  lemma GroupIsGroupedAs(nfts: seq<RawNft>)
    ensures GroupedAs(Group(nfts), nfts)
  {
    GroupKeys(nfts);
    GroupEntries(nfts);
    GroupCountsAll(nfts);
  }

  /** `Object.entries(collections).map(...)`: the first token id represents the collection. */
  function ToHolding(e: CollectionEntry): NftHolding
    requires e.tokenIds != []
  {
    NftHolding(e.id, e.name, e.tokenIds[0], e.count)
  }

  lemma {:induction false} SumCountsOfHoldings(groups: seq<CollectionEntry>, hs: seq<NftHolding>)
    requires |hs| == |groups|
    requires forall k :: 0 <= k < |groups| ==> hs[k].count == groups[k].count
    ensures SumOf(hs, HoldingCount) == SumOf(groups, EntryCount)
  {
    if groups != [] {
      SumCountsOfHoldings(groups[..|groups| - 1], hs[..|hs| - 1]);
    }
  }

  /** `Object.entries(collections).map(...)`, in the dictionary's insertion order. */
  function ToHoldings(groups: seq<CollectionEntry>): (hs: seq<NftHolding>)
    requires forall k :: 0 <= k < |groups| ==> groups[k].tokenIds != []
    ensures |hs| == |groups|
    ensures forall k :: 0 <= k < |groups| ==> hs[k] == ToHolding(groups[k])
  {
    seq(|groups|, k requires 0 <= k < |groups| => ToHolding(groups[k]))
  }

  lemma GroupStep(nfts: seq<RawNft>, i: nat)
    requires i < |nfts|
    ensures Group(nfts[..i + 1]) == AddNft(Group(nfts[..i]), nfts[i])
  {
    assert nfts[..i + 1][..i] == nfts[..i];
  }

  /** What the NFT fetch reports, stated against the reference definitions. */
  ghost predicate ReportsCollections(holdings: seq<NftHolding>, nfts: seq<RawNft>)
  {
    && |holdings| == |SeenOrder(nfts)|
    && (forall k :: 0 <= k < |holdings| ==>
          && holdings[k].collection == SeenOrder(nfts)[k]
          && holdings[k].collectionName == CollectionName(holdings[k].collection)
          && holdings[k].count == |IdsOf(nfts, holdings[k].collection)| > 0
          && holdings[k].tokenId == IdsOf(nfts, holdings[k].collection)[0])
    && (forall i, j :: 0 <= i < j < |holdings| ==> holdings[i].collection != holdings[j].collection)
    && SumOf(holdings, HoldingCount) == |nfts|
  }

  lemma GroupReportsCollections(nfts: seq<RawNft>)
    ensures forall k :: 0 <= k < |Group(nfts)| ==> Group(nfts)[k].tokenIds != []
    ensures ReportsCollections(ToHoldings(Group(nfts)), nfts)
  {
    GroupIsGroupedAs(nfts);
    SeenOrderDistinct(nfts);
    SumCountsOfHoldings(Group(nfts), ToHoldings(Group(nfts)));
  }

  /**
   * The grouping loop of the NFT fetch: one holding per distinct collection,
   * in first-seen order, counting its records and represented by its first
   * token id; the counts add up to the number of records.
   */
  method GroupNfts(nfts: seq<RawNft>) returns (holdings: seq<NftHolding>)
    ensures ReportsCollections(holdings, nfts)
  {
    var collections: seq<CollectionEntry> := [];
    var i := 0;
    while i < |nfts|
      invariant 0 <= i <= |nfts|
      invariant collections == Group(nfts[..i])
    {
      var nft := nfts[i];
      var id := CollectionId(nft);
      var k := IndexOf(collections, EntryKey, id);
      if k < 0 {
        collections := collections + [NewEntry(nft)];
      } else {
        collections := collections[k := Bump(collections[k], nft)];
      }
      GroupStep(nfts, i);
      i := i + 1;
    }
    assert nfts[..i] == nfts;
    GroupReportsCollections(nfts);
    holdings := ToHoldings(collections);
  }
}
