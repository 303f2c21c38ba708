/**
 * The ledger invariant, stated over the values of the six stores, and one
 * lemma per kind of update showing that the update keeps it.
 */
module LedgerInvariant {
  import opened Records
  import opened Market
  import opened Collections

  /** The four figures of `get_marketplace_stats`. */
  datatype MarketplaceStats = MarketplaceStats(
    totalNfts: nat,
    nftsForSale: nat,
    totalSales: nat,
    totalVolume: nat)

  /** A stored project is filed under its own id and lists each contributor once. */
  ghost predicate ProjectWellFormed(key: nat, p: Project) {
    p.id == key && 1 <= key && NoDuplicates(p.contributors)
  }

  /** Entry `i` of a history is a sale from the holder after entry `i - 1` to someone else. */
  ghost predicate SaleLink(h: seq<Transaction>, i: nat)
    requires 1 <= i < |h|
  {
    h[i].kind == Sale && h[i].from == h[i - 1].to && h[i].from != h[i].to
  }

  /**
   * An NFT's history is a chain of custody: it starts with the mint to the
   * creator, every later entry is a sale from the previous holder to someone
   * else, and the last holder is the current owner.
   */
  ghost predicate CustodyChain(n: Nft) {
    var h := n.saleHistory;
    && |h| >= 1
    && h[0] == MintTx(n.creator, n.createdAt)
    && h[|h| - 1].to == n.currentOwner
    && (forall i :: 1 <= i < |h| ==> SaleLink(h, i))
  }

  /** A stored NFT is filed under its own id, carries the default royalty and has a chain of custody. */
  ghost predicate NftWellFormed(key: nat, n: Nft) {
    n.id == key && 1 <= key && n.royaltyPercentage == DEFAULT_ROYALTY_PERCENTAGE && CustodyChain(n)
  }

  /** A recorded royalty is positive and went to the creator of a stored NFT. */
  ghost predicate PaymentWellFormed(p: RoyaltyPayment, nfts: map<nat, Nft>) {
    p.amount > 0 && p.nftId in nfts && p.recipient == nfts[p.nftId].creator
  }

  ghost predicate ProjectsWellFormed(projects: map<nat, Project>, nextId: nat) {
    forall k :: k in projects ==> k < nextId && ProjectWellFormed(k, projects[k])
  }

  ghost predicate NftsWellFormed(nfts: map<nat, Nft>, nextNftId: nat) {
    forall k :: k in nfts ==> k < nextNftId && NftWellFormed(k, nfts[k])
  }

  ghost predicate PaymentsWellFormed(ps: seq<RoyaltyPayment>, nfts: map<nat, Nft>) {
    forall i :: 0 <= i < |ps| ==> PaymentWellFormed(ps[i], nfts)
  }

  /**
   * The ledger invariant: both counters are ahead of every id in use, every
   * stored record is well formed, the global log holds as many mints as
   * there are stored NFTs, and every royalty payment is backed by a stored NFT.
   */
  ghost predicate LedgerWellFormed(projects: map<nat, Project>, nextId: nat,
                                   nfts: map<nat, Nft>, nextNftId: nat,
                                   txs: seq<Transaction>, ps: seq<RoyaltyPayment>) {
    && 1 <= nextId && 1 <= nextNftId
    && ProjectsWellFormed(projects, nextId)
    && NftsWellFormed(nfts, nextNftId)
    && KindCount(txs, Mint) == |nfts|
    && PaymentsWellFormed(ps, nfts)
  }

  /** The ids of the NFTs listed for sale. */
  function ListedIds(nfts: map<nat, Nft>): (r: set<nat>)
    ensures r <= nfts.Keys
    ensures forall k :: k in r <==> k in nfts && nfts[k].isForSale
  {
    set k | k in nfts && nfts[k].isForSale
  }

  /**
   * The marketplace figures of an NFT store and a transaction log: no more
   * NFTs listed than stored, no more sales than logged transactions, and no
   * volume without a sale.
   */
  function StatsOf(nfts: map<nat, Nft>, txs: seq<Transaction>): (s: MarketplaceStats)
    ensures s.totalNfts == |nfts| && s.nftsForSale <= s.totalNfts
    ensures s.totalSales <= |txs|
    ensures s.totalSales == 0 ==> s.totalVolume == 0
  {
    SubsetCardinality(ListedIds(nfts), nfts.Keys);
    MarketplaceStats(|nfts|, |ListedIds(nfts)|, KindCount(txs, Sale), SaleVolume(txs))
  }

  /** Both stores and logs start empty and both counters at 1. */
  lemma EmptyLedgerWellFormed()
    ensures LedgerWellFormed(map[], 1, map[], 1, [], [])
  {
  }

  /** Filing a new, empty project under the next project id keeps the invariant. */
  lemma CreateKeepsLedger(projects: map<nat, Project>, nextId: nat, nfts: map<nat, Nft>, nextNftId: nat,
                          txs: seq<Transaction>, ps: seq<RoyaltyPayment>, p: Project)
    requires LedgerWellFormed(projects, nextId, nfts, nextNftId, txs, ps)
    requires p.id == nextId && p.contributors == []
    ensures nextId !in projects
    ensures LedgerWellFormed(projects[nextId := p], nextId + 1, nfts, nextNftId, txs, ps)
  {
  }

  /** Replacing a stored project by one with the same id and no repeated contributor keeps the invariant. */
  lemma ProjectEditKeepsLedger(projects: map<nat, Project>, nextId: nat, nfts: map<nat, Nft>, nextNftId: nat,
                               txs: seq<Transaction>, ps: seq<RoyaltyPayment>, k: nat, p: Project)
    requires LedgerWellFormed(projects, nextId, nfts, nextNftId, txs, ps)
    requires k in projects && p.id == k && NoDuplicates(p.contributors)
    ensures LedgerWellFormed(projects[k := p], nextId, nfts, nextNftId, txs, ps)
  {
  }

  /** Filing a well-formed NFT under an id below the counter keeps the NFT store well formed. */
  lemma NftsPut(nfts: map<nat, Nft>, bound: nat, nextNftId: nat, k: nat, n: Nft)
    requires NftsWellFormed(nfts, bound) && bound <= nextNftId
    requires k < nextNftId && NftWellFormed(k, n)
    ensures NftsWellFormed(nfts[k := n], nextNftId)
  {
  }

  /** Replacing or adding an NFT without changing a stored creator keeps every royalty payment backed. */
  lemma PaymentsPut(ps: seq<RoyaltyPayment>, nfts: map<nat, Nft>, k: nat, n: Nft)
    requires PaymentsWellFormed(ps, nfts)
    requires k in nfts ==> nfts[k].creator == n.creator
    ensures PaymentsWellFormed(ps, nfts[k := n])
  {
    forall i | 0 <= i < |ps| ensures PaymentWellFormed(ps[i], nfts[k := n]) {
      assert PaymentWellFormed(ps[i], nfts);
    }
  }

  /** Logging a backed royalty payment keeps every royalty payment backed. */
  lemma PaymentsPush(ps: seq<RoyaltyPayment>, nfts: map<nat, Nft>, p: RoyaltyPayment)
    requires PaymentsWellFormed(ps, nfts) && PaymentWellFormed(p, nfts)
    ensures PaymentsWellFormed(ps + [p], nfts)
  {
    forall i | 0 <= i < |ps + [p]| ensures PaymentWellFormed((ps + [p])[i], nfts) {
      if i < |ps| {
        assert (ps + [p])[i] == ps[i];
      }
    }
  }

  /** Filing an NFT puts its id in or out of the listing according to its flag, and no other id moves. */
  lemma ListedPut(nfts: map<nat, Nft>, k: nat, n: Nft)
    ensures ListedIds(nfts[k := n]) == if n.isForSale then ListedIds(nfts) + {k} else ListedIds(nfts) - {k}
  {
  }

  /** A sale from the current owner to someone else extends the chain of custody to the buyer. */
  lemma SaleExtendsCustody(n: Nft, buyer: string, now: nat)
    requires CustodyChain(n) && buyer != n.currentOwner
    ensures CustodyChain(n.(currentOwner := buyer,
                            saleHistory := n.saleHistory + [SaleTx(n.currentOwner, buyer, n.price, now)]))
  {
    var h := n.saleHistory + [SaleTx(n.currentOwner, buyer, n.price, now)];
    forall i | 1 <= i < |h| ensures SaleLink(h, i) {
      if i < |n.saleHistory| {
        assert SaleLink(n.saleHistory, i);
        assert h[i] == n.saleHistory[i] && h[i - 1] == n.saleHistory[i - 1];
      }
    }
  }

  /**
   * Minting keeps the invariant: the new NFT is filed under the next NFT id
   * and its mint transaction is logged.
   */
  lemma MintKeepsLedger(projects: map<nat, Project>, nextId: nat, nfts: map<nat, Nft>, nextNftId: nat,
                        txs: seq<Transaction>, ps: seq<RoyaltyPayment>, n: Nft)
    requires LedgerWellFormed(projects, nextId, nfts, nextNftId, txs, ps)
    requires n.id == nextNftId && n.royaltyPercentage == DEFAULT_ROYALTY_PERCENTAGE
    requires n.currentOwner == n.creator && n.saleHistory == [MintTx(n.creator, n.createdAt)]
    ensures nextNftId !in nfts
    ensures LedgerWellFormed(projects, nextId, nfts[nextNftId := n], nextNftId + 1,
                             txs + [MintTx(n.creator, n.createdAt)], ps)
  {
    assert NftWellFormed(nextNftId, n);
    NftsPut(nfts, nextNftId, nextNftId + 1, nextNftId, n);
    PaymentsPut(ps, nfts, nextNftId, n);
    KindCountAppend(txs, MintTx(n.creator, n.createdAt), Mint);
  }

  /** Filing a listed NFT under a new id and logging a mint adds one NFT and one listing, and no sale. */
  lemma MintStats(nfts: map<nat, Nft>, txs: seq<Transaction>, k: nat, n: Nft, mint: Transaction)
    requires k !in nfts && n.isForSale && mint.kind == Mint
    ensures var before := StatsOf(nfts, txs);
      StatsOf(nfts[k := n], txs + [mint])
        == before.(totalNfts := before.totalNfts + 1, nftsForSale := before.nftsForSale + 1)
  {
    KindCountAppend(txs, mint, Sale);
    SaleVolumeAppend(txs, mint);
    ListedPut(nfts, k, n);
  }

  /**
   * Replacing a stored NFT by a record that differs only in its price, its
   * listing flag, its view count or its descriptive fields keeps the
   * invariant; the listing changes only if the flag does.
   */
  lemma NftEditKeepsLedger(projects: map<nat, Project>, nextId: nat, nfts: map<nat, Nft>, nextNftId: nat,
                           txs: seq<Transaction>, ps: seq<RoyaltyPayment>, k: nat, n: Nft)
    requires LedgerWellFormed(projects, nextId, nfts, nextNftId, txs, ps)
    requires k in nfts
    requires n.id == nfts[k].id && n.creator == nfts[k].creator && n.currentOwner == nfts[k].currentOwner
    requires n.royaltyPercentage == nfts[k].royaltyPercentage && n.createdAt == nfts[k].createdAt
    requires n.saleHistory == nfts[k].saleHistory
    ensures LedgerWellFormed(projects, nextId, nfts[k := n], nextNftId, txs, ps)
    ensures n.isForSale == nfts[k].isForSale ==> ListedIds(nfts[k := n]) == ListedIds(nfts)
  {
    assert NftWellFormed(k, nfts[k]);
    NftsPut(nfts, nextNftId, nextNftId, k, n);
    PaymentsPut(ps, nfts, k, n);
    assert |nfts[k := n]| == |nfts|;
    ListedPut(nfts, k, n);
  }

  /** Replacing a stored NFT without touching its flag and logging one sale counts that sale and its price. */
  lemma SaleStats(nfts: map<nat, Nft>, txs: seq<Transaction>, k: nat, sold: Nft, sale: Transaction)
    requires k in nfts && sold.isForSale == nfts[k].isForSale && sale.kind == Sale
    ensures var before := StatsOf(nfts, txs);
      StatsOf(nfts[k := sold], txs + [sale])
        == before.(totalSales := before.totalSales + 1, totalVolume := before.totalVolume + sale.price)
  {
    assert |nfts[k := sold]| == |nfts|;
    KindCountAppend(txs, sale, Sale);
    SaleVolumeAppend(txs, sale);
    ListedPut(nfts, k, sold);
  }

  /**
   * A sale to someone other than the owner keeps the invariant once the sale
   * is appended to the NFT's history and to the global log and its royalty,
   * when positive, to the royalty log.
   */
  lemma SaleKeepsLedger(projects: map<nat, Project>, nextId: nat, nfts: map<nat, Nft>, nextNftId: nat,
                        txs: seq<Transaction>, ps: seq<RoyaltyPayment>, k: nat, buyer: string, now: nat,
                        sale: Transaction, sold: Nft, royalty: nat, ps': seq<RoyaltyPayment>)
    requires LedgerWellFormed(projects, nextId, nfts, nextNftId, txs, ps)
    requires k in nfts && buyer != nfts[k].currentOwner
    requires sale == SaleTx(nfts[k].currentOwner, buyer, nfts[k].price, now)
    requires sold == nfts[k].(currentOwner := buyer, saleHistory := nfts[k].saleHistory + [sale])
    requires ps' == if royalty > 0 then ps + [RoyaltyPayment(nfts[k].creator, royalty, k, TxRef(k, now))] else ps
    ensures nfts[k].royaltyPercentage == DEFAULT_ROYALTY_PERCENTAGE
    ensures LedgerWellFormed(projects, nextId, nfts[k := sold], nextNftId, txs + [sale], ps')
  {
    var n := nfts[k];
    assert NftWellFormed(k, n);
    SaleExtendsCustody(n, buyer, now);
    NftsPut(nfts, nextNftId, nextNftId, k, sold);
    PaymentsPut(ps, nfts, k, sold);
    if royalty > 0 {
      PaymentsPush(ps, nfts[k := sold], RoyaltyPayment(n.creator, royalty, k, TxRef(k, now)));
    }
    assert |nfts[k := sold]| == |nfts|;
    KindCountAppend(txs, sale, Mint);
  }
}
