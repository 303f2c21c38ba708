/**
 * A worked run of the ledger: one project and one NFT, sold by its creator
 * and then resold, showing the two counters, the royalty rule and the
 * listing flag.
 */
module LedgerScenario {
  import opened Wrappers
  import opened Records
  import opened Market
  import opened LedgerInvariant
  import opened MusicLedger

  /**
   * On a fresh ledger the first project and the first NFT both get id 1,
   * and the NFT is listed, owned by its creator.
   */
  method FirstListing() returns (ledger: Ledger, projectId: nat, nftId: nat)
    ensures fresh(ledger) && ledger.Valid()
    ensures projectId == 1 && nftId == 1 && nftId in ledger.nfts
    ensures var n := ledger.nfts[nftId];
      && n.creator == "alice" == n.currentOwner && n.isForSale
      && n.price == 100 && n.royaltyPercentage == DEFAULT_ROYALTY_PERCENTAGE
    ensures StatsOf(ledger.nfts, ledger.transactions) == MarketplaceStats(1, 1, 0, 0)
  {
    ledger := new Ledger();
    assert StatsOf(ledger.nfts, ledger.transactions) == MarketplaceStats(0, 0, 0, 0);
    projectId := ledger.CreateProject("Demo", "A first song", "alice");
    nftId := ledger.MintNft("Demo #1", "Cover art", "ipfs://cover", "alice", projectId, 100, "single", 5);
  }

  /** The creator's own sale pays the whole price to the creator and no royalty; the NFT stays listed. */
  method CreatorSale() returns (ledger: Ledger, nftId: nat, first: Result<Purchase, NftError>)
    ensures fresh(ledger) && ledger.Valid()
    ensures nftId in ledger.nfts
    ensures var n := ledger.nfts[nftId];
      && n.creator == "alice" && n.currentOwner == "bob" && n.isForSale
      && n.price == 100 && n.royaltyPercentage == DEFAULT_ROYALTY_PERCENTAGE
    ensures first == Ok(Purchase(100, 0))
    ensures StatsOf(ledger.nfts, ledger.transactions) == MarketplaceStats(1, 1, 1, 100)
  {
    var projectId;
    ledger, projectId, nftId := FirstListing();
    var minted := ledger.nfts[nftId];
    assert "alice" != "bob";
    first := ledger.BuyNft(nftId, "bob", 6);
    assert first.Ok? && first.value.royaltyAmount == 0;
    assert first.value.sellerAmount == 100;
    var resold := ledger.nfts[nftId];
    assert resold == minted.(currentOwner := "bob", saleHistory := resold.saleHistory);
  }

  /**
   * The resale pays the creator 10% of the price and the seller the rest,
   * and the marketplace figures count both sales.
   */
  method ResaleScenario() returns (first: Result<Purchase, NftError>, second: Result<Purchase, NftError>,
                                   stats: MarketplaceStats)
    ensures first == Ok(Purchase(100, 0))
    ensures second == Ok(Purchase(90, 10))
    ensures stats == MarketplaceStats(1, 1, 2, 200)
  {
    var ledger, nftId;
    ledger, nftId, first := CreatorSale();
    assert "bob" != "carol";
    DefaultRoyalty(100, "alice", "bob");
    second := ledger.BuyNft(nftId, "carol", 7);
    assert second.Ok? && second.value.royaltyAmount == 10;
    assert second.value.sellerAmount == 90;
    assert StatsOf(ledger.nfts, ledger.transactions) == MarketplaceStats(1, 1, 2, 200);
    stats := ledger.GetMarketplaceStats();
  }
}
