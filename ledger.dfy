/**
 * The canister's in-memory ledger: the project and NFT stores, the global
 * transaction and royalty logs and the two id counters, with one method per
 * entry point that changes them and one function per read-only query.
 */
module MusicLedger {
  import opened Wrappers
  import opened Records
  import opened Market
  import opened Collections
  import opened LedgerInvariant

  /** Why an NFT entry point refused a call. */
  datatype NftError = NftNotFound | NotForSale | CannotBuyOwnNft | NotOwner

  /** The split reported by a successful purchase. */
  datatype Purchase = Purchase(sellerAmount: nat, royaltyAmount: nat)

  /** The prices reported by a successful price update. */
  datatype PriceChange = PriceChange(oldPrice: nat, newPrice: nat)

  class Ledger {
    var projects: map<nat, Project>
    var nfts: map<nat, Nft>
    var transactions: seq<Transaction>
    var royaltyPayments: seq<RoyaltyPayment>
    var nextId: nat
    var nextNftId: nat

    /**
     * The ledger invariant: the counters are ahead of every id in use, every
     * record is well formed, the global log holds as many mints as there are
     * NFTs, and every royalty payment is backed by an NFT.
     */
    ghost predicate Valid()
      reads this
    {
      LedgerWellFormed(projects, nextId, nfts, nextNftId, transactions, royaltyPayments)
    }

    /** The empty ledger of a freshly installed canister: both counters start at 1. */
    constructor ()
      ensures Valid()
      ensures projects == map[] && nfts == map[]
      ensures transactions == [] && royaltyPayments == []
      ensures nextId == 1 && nextNftId == 1
    {
      EmptyLedgerWellFormed();
      projects, nfts := map[], map[];
      transactions, royaltyPayments := [], [];
      nextId, nextNftId := 1, 1;
    }

    // ---------------------------------------------------------------- projects

    /** `create_project`: files a new, empty project under the next project id. */
    method CreateProject(title: string, description: string, owner: string) returns (id: nat)
      requires Valid()
      modifies this`projects, this`nextId
      ensures Valid()
      ensures id == old(nextId) && nextId == id + 1
      ensures id !in old(projects)
      ensures projects == old(projects)[id := Project(id, title, description, owner, [], [])]
    {
      id := nextId;
      var p := Project(id, title, description, owner, [], []);
      CreateKeepsLedger(projects, nextId, nfts, nextNftId, transactions, royaltyPayments, p);
      projects, nextId := projects[id := p], nextId + 1;
    }

    /**
     * `add_track`: appends a track whose id is the given timestamp to an
     * existing project; an unknown project changes nothing.
     */
    method AddTrack(projectId: nat, name: string, ipfsHash: string, uploadedBy: string, timestamp: nat)
      returns (ok: bool)
      requires Valid()
      modifies this`projects
      ensures Valid()
      ensures ok <==> projectId in old(projects)
      ensures !ok ==> projects == old(projects)
      ensures ok ==>
        var p := old(projects)[projectId];
        projects == old(projects)[projectId := p.(tracks := p.tracks + [Track(timestamp, name, ipfsHash, uploadedBy, timestamp)])]
    {
      if projectId in projects {
        var p := projects[projectId];
        var track := Track(timestamp, name, ipfsHash, uploadedBy, timestamp);
        ProjectEditKeepsLedger(projects, nextId, nfts, nextNftId, transactions, royaltyPayments,
                               projectId, p.(tracks := p.tracks + [track]));
        projects := projects[projectId := p.(tracks := p.tracks + [track])];
        ok := true;
      } else {
        ok := false;
      }
    }

    /**
     * `add_contributor`: adds a contributor to an existing project unless it
     * is already listed; an unknown project changes nothing.
     */
    method AddContributor(projectId: nat, contributor: string) returns (ok: bool)
      requires Valid()
      modifies this`projects
      ensures Valid()
      ensures ok <==> projectId in old(projects)
      ensures !ok ==> projects == old(projects)
      ensures ok ==>
        var p := old(projects)[projectId];
        && projects == old(projects)[projectId := p.(contributors := WithContributor(p.contributors, contributor))]
        && contributor in projects[projectId].contributors
    {
      if projectId in projects {
        var p := projects[projectId];
        ProjectEditKeepsLedger(projects, nextId, nfts, nextNftId, transactions, royaltyPayments,
                               projectId, p.(contributors := WithContributor(p.contributors, contributor)));
        projects := projects[projectId := p.(contributors := WithContributor(p.contributors, contributor))];
        ok := true;
      } else {
        ok := false;
      }
    }

    /**
     * `remove_track`: drops every track with the given id from an existing
     * project; an unknown project changes nothing.
     */
    method RemoveTrack(projectId: nat, trackId: nat) returns (ok: bool)
      requires Valid()
      modifies this`projects
      ensures Valid()
      ensures ok <==> projectId in old(projects)
      ensures !ok ==> projects == old(projects)
      ensures ok ==>
        var p := old(projects)[projectId];
        && projects == old(projects)[projectId := p.(tracks := RetainTracks(p.tracks, trackId))]
        && forall t :: t in projects[projectId].tracks ==> t.id != trackId
    {
      if projectId in projects {
        var p := projects[projectId];
        ProjectEditKeepsLedger(projects, nextId, nfts, nextNftId, transactions, royaltyPayments,
                               projectId, p.(tracks := RetainTracks(p.tracks, trackId)));
        projects := projects[projectId := p.(tracks := RetainTracks(p.tracks, trackId))];
        ok := true;
      } else {
        ok := false;
      }
    }

    /** `get_project`: the project filed under `projectId`, if any. */
    function GetProject(projectId: nat): (r: Option<Project>)
      requires Valid()
      reads this
      ensures r.Some? <==> projectId in projects
      ensures r.Some? ==> r.value == projects[projectId] && r.value.id == projectId
    {
      if projectId in projects then Some(projects[projectId]) else None
    }

    /** `list_projects`: every stored project once, in no particular order. */
    function ListProjects(): (r: set<Project>)
      requires Valid()
      reads this
      ensures forall p :: p in r <==> p.id in projects && projects[p.id] == p
      ensures |r| == |projects|
    {
      DistinctValuesCount(projects);
      projects.Values
    }

    /** `get_project_tracks`: the project's tracks, or none for an unknown project. */
    function GetProjectTracks(projectId: nat): (r: seq<Track>)
      reads this
      ensures projectId !in projects ==> r == []
      ensures projectId in projects ==> r == projects[projectId].tracks
    {
      if projectId in projects then projects[projectId].tracks else []
    }

    // -------------------------------------------------------------------- NFTs

    /**
     * `mint_nft`: files a new NFT under the next NFT id, owned by its creator,
     * for sale at the given price with the default royalty, and logs its
     * mint transaction both in its history and globally. The project id is
     * stored as given.
     */
    method MintNft(name: string, description: string, imageUrl: string, creator: string,
                   projectId: nat, price: nat, category: string, now: nat) returns (id: nat)
      requires Valid()
      modifies this`nfts, this`nextNftId, this`transactions
      ensures Valid()
      ensures id == old(nextNftId) && nextNftId == id + 1
      ensures id !in old(nfts)
      ensures nfts == old(nfts)[id := Nft(id, name, description, imageUrl, creator, creator, projectId, price,
                                          true, DEFAULT_ROYALTY_PERCENTAGE, now, 0, [MintTx(creator, now)], category)]
      ensures transactions == old(transactions) + [MintTx(creator, now)]
      ensures var before := StatsOf(old(nfts), old(transactions));
        StatsOf(nfts, transactions) == before.(totalNfts := before.totalNfts + 1, nftsForSale := before.nftsForSale + 1)
    {
      id := nextNftId;
      var mint := MintTx(creator, now);
      var nft := Nft(id, name, description, imageUrl, creator, creator, projectId, price,
                     true, DEFAULT_ROYALTY_PERCENTAGE, now, 0, [mint], category);
      MintKeepsLedger(projects, nextId, nfts, nextNftId, transactions, royaltyPayments, nft);
      MintStats(nfts, transactions, id, nft, mint);
      nfts, nextNftId, transactions := nfts[id := nft], nextNftId + 1, transactions + [mint];
    }

    /**
     * `get_nft`: the NFT filed under `nftId`, if any; looking it up counts
     * one more view, and the returned copy includes that view.
     */
    method GetNft(nftId: nat) returns (r: Option<Nft>)
      requires Valid()
      modifies this`nfts
      ensures Valid()
      ensures r.None? <==> nftId !in old(nfts)
      ensures r.None? ==> nfts == old(nfts)
      ensures r.Some? ==>
        && r.value == old(nfts)[nftId].(viewCount := old(nfts)[nftId].viewCount + 1)
        && nfts == old(nfts)[nftId := r.value]
    {
      if nftId in nfts {
        var nft := nfts[nftId].(viewCount := nfts[nftId].viewCount + 1);
        NftEditKeepsLedger(projects, nextId, nfts, nextNftId, transactions, royaltyPayments, nftId, nft);
        nfts := nfts[nftId := nft];
        r := Some(nft);
      } else {
        r := None;
      }
    }

    /**
     * `buy_nft`: transfers a listed NFT to a buyer who does not already own
     * it, logs the sale in its history and globally, and records the
     * creator's royalty when there is one. The listing flag and the price
     * stay as they were.
     */
    method BuyNft(nftId: nat, buyer: string, now: nat) returns (r: Result<Purchase, NftError>)
      requires Valid()
      modifies this`nfts, this`transactions, this`royaltyPayments
      ensures Valid()
      ensures nftId !in old(nfts) ==> r == Err(NftNotFound)
      ensures nftId in old(nfts) && !old(nfts)[nftId].isForSale ==> r == Err(NotForSale)
      ensures nftId in old(nfts) && old(nfts)[nftId].isForSale && old(nfts)[nftId].currentOwner == buyer
              ==> r == Err(CannotBuyOwnNft)
      ensures r.Err? ==>
        nfts == old(nfts) && transactions == old(transactions) && royaltyPayments == old(royaltyPayments)
      ensures r.Ok? <==>
        nftId in old(nfts) && old(nfts)[nftId].isForSale && old(nfts)[nftId].currentOwner != buyer
      ensures r.Ok? ==>
        var n := old(nfts)[nftId];
        var sale := SaleTx(n.currentOwner, buyer, n.price, now);
        var royalty := RoyaltyAmount(n.price, n.royaltyPercentage, n.creator, n.currentOwner);
        && r.value.royaltyAmount == royalty
        && r.value.sellerAmount + r.value.royaltyAmount == n.price
        && nfts == old(nfts)[nftId := n.(currentOwner := buyer, saleHistory := n.saleHistory + [sale])]
        && transactions == old(transactions) + [sale]
        && royaltyPayments == (if royalty > 0
             then old(royaltyPayments) + [RoyaltyPayment(n.creator, royalty, nftId, TxRef(nftId, now))]
             else old(royaltyPayments))
        && var before := StatsOf(old(nfts), old(transactions));
           StatsOf(nfts, transactions) == before.(totalSales := before.totalSales + 1, totalVolume := before.totalVolume + n.price)
    {
      if nftId !in nfts {
        r := Err(NftNotFound);
      } else if !nfts[nftId].isForSale {
        r := Err(NotForSale);
      } else if nfts[nftId].currentOwner == buyer {
        r := Err(CannotBuyOwnNft);
      } else {
        var purchase := Settle(nftId, buyer, now);
        r := Ok(purchase);
      }
    }

    /**
     * The settlement step of `buy_nft`, once the checks have passed: the
     * buyer becomes the owner, the sale is logged in the NFT's history and
     * globally, and a positive royalty is paid to the creator.
     */
    method Settle(nftId: nat, buyer: string, now: nat) returns (p: Purchase)
      requires Valid()
      requires nftId in nfts && nfts[nftId].currentOwner != buyer
      modifies this`nfts, this`transactions, this`royaltyPayments
      ensures Valid()
      ensures
        var n := old(nfts)[nftId];
        var sale := SaleTx(n.currentOwner, buyer, n.price, now);
        var royalty := RoyaltyAmount(n.price, n.royaltyPercentage, n.creator, n.currentOwner);
        && p.royaltyAmount == royalty
        && p.sellerAmount + p.royaltyAmount == n.price
        && nfts == old(nfts)[nftId := n.(currentOwner := buyer, saleHistory := n.saleHistory + [sale])]
        && transactions == old(transactions) + [sale]
        && royaltyPayments == (if royalty > 0
             then old(royaltyPayments) + [RoyaltyPayment(n.creator, royalty, nftId, TxRef(nftId, now))]
             else old(royaltyPayments))
        && var before := StatsOf(old(nfts), old(transactions));
           StatsOf(nfts, transactions) == before.(totalSales := before.totalSales + 1, totalVolume := before.totalVolume + n.price)
    {
      var nft := nfts[nftId];
      var royalty := RoyaltyAmount(nft.price, nft.royaltyPercentage, nft.creator, nft.currentOwner);
      var sale := SaleTx(nft.currentOwner, buyer, nft.price, now);
      var sold := nft.(currentOwner := buyer, saleHistory := nft.saleHistory + [sale]);
      var payments := if royalty > 0
        then royaltyPayments + [RoyaltyPayment(nft.creator, royalty, nftId, TxRef(nftId, now))]
        else royaltyPayments;
      SaleKeepsLedger(projects, nextId, nfts, nextNftId, transactions, royaltyPayments, nftId, buyer, now,
                      sale, sold, royalty, payments);
      SaleStats(nfts, transactions, nftId, sold, sale);
      nfts, transactions, royaltyPayments := nfts[nftId := sold], transactions + [sale], payments;
      p := Purchase(nft.price - royalty, royalty);
    }

    /**
     * `update_nft_price`: a request whose `owner` argument names the current
     * owner sets a new price; nothing else changes. The owner is self-declared.
     */
    method UpdateNftPrice(nftId: nat, newPrice: nat, owner: string) returns (r: Result<PriceChange, NftError>)
      requires Valid()
      modifies this`nfts
      ensures Valid()
      ensures nftId !in old(nfts) ==> r == Err(NftNotFound)
      ensures nftId in old(nfts) && old(nfts)[nftId].currentOwner != owner ==> r == Err(NotOwner)
      ensures r.Err? ==> nfts == old(nfts)
      ensures r.Ok? <==> nftId in old(nfts) && old(nfts)[nftId].currentOwner == owner
      ensures r.Ok? ==>
        && r.value == PriceChange(old(nfts)[nftId].price, newPrice)
        && nfts == old(nfts)[nftId := old(nfts)[nftId].(price := newPrice)]
    {
      if nftId !in nfts {
        return Err(NftNotFound);
      }
      var nft := nfts[nftId];
      if nft.currentOwner != owner {
        return Err(NotOwner);
      }
      NftEditKeepsLedger(projects, nextId, nfts, nextNftId, transactions, royaltyPayments, nftId, nft.(price := newPrice));
      nfts := nfts[nftId := nft.(price := newPrice)];
      r := Ok(PriceChange(nft.price, newPrice));
    }

    /**
     * `set_nft_for_sale`: a request whose `owner` argument names the current
     * owner lists or delists the NFT; the result reports which.
     */
    method SetNftForSale(nftId: nat, forSale: bool, owner: string) returns (r: Result<bool, NftError>)
      requires Valid()
      modifies this`nfts
      ensures Valid()
      ensures nftId !in old(nfts) ==> r == Err(NftNotFound)
      ensures nftId in old(nfts) && old(nfts)[nftId].currentOwner != owner ==> r == Err(NotOwner)
      ensures r.Err? ==> nfts == old(nfts)
      ensures r.Ok? <==> nftId in old(nfts) && old(nfts)[nftId].currentOwner == owner
      ensures r.Ok? ==>
        && r.value == forSale
        && nfts == old(nfts)[nftId := old(nfts)[nftId].(isForSale := forSale)]
    {
      if nftId !in nfts {
        return Err(NftNotFound);
      }
      var nft := nfts[nftId];
      if nft.currentOwner != owner {
        return Err(NotOwner);
      }
      NftEditKeepsLedger(projects, nextId, nfts, nextNftId, transactions, royaltyPayments, nftId, nft.(isForSale := forSale));
      nfts := nfts[nftId := nft.(isForSale := forSale)];
      r := Ok(forSale);
    }

    /** `list_nfts`: every stored NFT once, in no particular order. */
    function ListNfts(): (r: set<Nft>)
      requires Valid()
      reads this
      ensures forall n :: n in r <==> n.id in nfts && nfts[n.id] == n
      ensures |r| == |nfts|
    {
      DistinctValuesCount(nfts);
      nfts.Values
    }

    /**
     * `get_nft_transactions`: the NFT's stored history, a chain of custody
     * that starts with its mint, continues with one sale from each holder to
     * the next and ends with a transaction to its current owner; none for an
     * unknown NFT.
     */
    function GetNftTransactions(nftId: nat): (r: seq<Transaction>)
      requires Valid()
      reads this
      ensures nftId !in nfts ==> r == []
      ensures nftId in nfts ==>
        && r == nfts[nftId].saleHistory
        && |r| >= 1
        && r[0] == MintTx(nfts[nftId].creator, nfts[nftId].createdAt)
        && (forall i :: 1 <= i < |r| ==> SaleLink(r, i))
        && r[|r| - 1].to == nfts[nftId].currentOwner
        && KindCount(r, Mint) == 1
    {
      if nftId in nfts then
        var h := nfts[nftId].saleHistory;
        assert forall i :: 0 <= i < |h[1..]| ==> h[1..][i] == h[i + 1] && SaleLink(h, i + 1);
        KindCountZero(h[1..], Mint);
        h
      else []
    }

    /** `get_user_nfts`: exactly the stored NFTs whose current owner is `user`. */
    function GetUserNfts(user: string): (r: set<Nft>)
      requires Valid()
      reads this
      ensures forall n :: n in r <==> n.id in nfts && nfts[n.id] == n && n.currentOwner == user
    {
      set n | n in nfts.Values && n.currentOwner == user
    }

    /** `get_user_created_nfts`: exactly the stored NFTs minted by `creator`. */
    function GetUserCreatedNfts(creator: string): (r: set<Nft>)
      requires Valid()
      reads this
      ensures forall n :: n in r <==> n.id in nfts && nfts[n.id] == n && n.creator == creator
    {
      set n | n in nfts.Values && n.creator == creator
    }

    /**
     * `get_user_royalty_earnings`: the royalties paid to `user`, in the order
     * they were recorded; each one is positive and was paid on an NFT the
     * user created.
     */
    function GetUserRoyaltyEarnings(user: string): (r: seq<RoyaltyPayment>)
      requires Valid()
      reads this
      ensures r == RoyaltiesTo(royaltyPayments, user)
      ensures forall p :: p in r <==> p in royaltyPayments && p.recipient == user
      ensures forall p :: p in r ==> p.amount > 0 && p.nftId in nfts && nfts[p.nftId].creator == user
    {
      RoyaltiesTo(royaltyPayments, user)
    }

    /**
     * `get_marketplace_stats`: the number of NFTs, how many are listed, and
     * the number and summed price of the logged sales.
     */
    function GetMarketplaceStats(): (s: MarketplaceStats)
      requires Valid()
      reads this
      ensures s.totalNfts == |nfts| == KindCount(transactions, Mint)
      ensures s.nftsForSale == |ListedIds(nfts)| <= s.totalNfts
      ensures s.totalSales == KindCount(transactions, Sale) && s.totalVolume == SaleVolume(transactions)
      ensures s.totalSales + s.totalNfts == |transactions|
      ensures s.totalSales == 0 ==> s.totalVolume == 0
    {
      KindCountsPartition(transactions);
      StatsOf(nfts, transactions)
    }
  }
}
