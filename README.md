# Music collaboration ledger — a Dafny model

This project models the in-memory ledger of the music collaboration canister
(`src/music-collab-backend/src/lib.rs`). The ledger keeps:

- a map of music projects, each with contributors and an ordered list of tracks;
- a map of music NFTs, each with a creator, a current owner, a price, a
  for-sale flag, a 10% royalty and its own sale history;
- a global log of mint and sale transactions;
- a global log of royalty payments;
- two id counters, one for projects and one for NFTs, both starting at 1.

Layout:

- `records.dfy` (module `Records`): the stored records, plus the two updates
  applied inside a single project. One adds a contributor unless already
  listed. The other keeps the tracks whose id differs from the one removed.
- `collections.dfy` (module `Collections`): two general facts about finite
  sets and maps used by the queries.
- `market.dfy` (module `Market`): the royalty split of a sale, the sale
  count and volume over the transaction log, and the per-user filter over the
  royalty log.
- `invariant.dfy` (module `LedgerInvariant`): the ledger invariant, over
  plain values, and one lemma per kind of update showing that the update keeps
  it. The invariant has five parts:
  - each counter is ahead of every id it has handed out, and every record is
    filed under its own id;
  - no project lists a contributor twice (`Records.NoDuplicates`), which
    `add_contributor`'s check before pushing keeps;
  - every NFT has the default royalty and a chain of custody. Its history
    starts with the mint to the creator. Each later entry is a sale from the
    previous holder to somebody else, and the last holder is the current
    owner;
  - the global log holds as many mints as there are stored NFTs;
  - every royalty payment is positive and went to the creator of a stored NFT.
- `ledger.dfy` (module `MusicLedger`): class `Ledger`, whose fields are the
  six pieces of state. There is one method per entry point that changes
  state, and one function per read-only query. `BuyNft` hands its success
  path to the helper method `Settle`, which is not an entry point.
- `scenario.dfy` (module `LedgerScenario`): a worked run. It creates a project
  and mints an NFT, which both get id 1. The creator's own sale pays no
  royalty. The resale pays the creator 10 of a price of 100. The marketplace
  figures come out as 1 NFT, 1 listed, 2 sales and a volume of 200.

The model does what the code does, including these behaviours of the code:

- Projects and NFTs draw ids from two separate counters, not one shared
  counter, so project 1 and NFT 1 coexist.
- A track's id is the timestamp passed to `add_track`. Two tracks added with
  the same timestamp share an id and are removed together
  (`Records.SameTimestampTracksRemovedTogether`).
- `mint_nft` does not check that the project exists. It stores any
  `project_id` as given.
- No entry point reads the platform's caller identity; project operations
  check no one at all. `update_nft_price` and `set_nft_for_sale` compare an
  `owner` string, passed as an argument, with the current owner, so the owner
  is self-declared. `buy_nft` takes the buyer as an argument too, and only
  refuses a buyer who already owns the NFT.
- Prices may be 0. Nothing validates a price or a royalty percentage; every
  NFT gets 10%.
- A sale leaves the NFT listed, at the same price, so it can be resold at once.
- `get_nft` increments the view counter even though it is declared as a
  query. The model keeps that increment and returns the record with the
  incremented count.
- Operations return values instead of message strings:
  - `buy_nft` returns a `Purchase(sellerAmount, royaltyAmount)`;
  - `update_nft_price` returns a `PriceChange(oldPrice, newPrice)`;
  - `set_nft_for_sale` returns the new flag;
  - errors are the `NftError` values `NftNotFound`, `NotForSale`,
    `CannotBuyOwnNft` and `NotOwner`.

## Model

| member | source | states |
|---|---|---|
| MusicLedger.Ledger.constructor | src/music-collab-backend/src/lib.rs:80-87 | the ledger starts with no projects, NFTs, transactions or payments, both counters at 1, and satisfies the invariant |
| MusicLedger.Ledger.CreateProject | src/music-collab-backend/src/lib.rs:89-109 | returns the current project counter, advances it by one, and files a new project with no contributors and no tracks under that id, which was free; the invariant is kept |
| MusicLedger.Ledger.AddTrack | src/music-collab-backend/src/lib.rs:111-138 | succeeds exactly when the project exists; it then appends one track whose id is the timestamp, and otherwise changes nothing |
| MusicLedger.Ledger.AddContributor | src/music-collab-backend/src/lib.rs:152-165 | succeeds exactly when the project exists; the contributor is then listed, appended only if absent, so contributors stay free of duplicates |
| MusicLedger.Ledger.RemoveTrack | src/music-collab-backend/src/lib.rs:167-178 | succeeds exactly when the project exists; no track with that id remains and the others are kept; an unknown project changes nothing |
| MusicLedger.Ledger.GetProject | src/music-collab-backend/src/lib.rs:140-143 | returns the project exactly when its id is stored, and that project carries the id asked for |
| MusicLedger.Ledger.ListProjects | src/music-collab-backend/src/lib.rs:145-150 | returns exactly the stored projects, one per stored id |
| MusicLedger.Ledger.GetProjectTracks | src/music-collab-backend/src/lib.rs:180-188 | returns the project's tracks, or none when the project is unknown |
| MusicLedger.Ledger.MintNft | src/music-collab-backend/src/lib.rs:190-236 | returns the current NFT counter and advances it; files an NFT owned by its creator, listed for sale at 10% royalty, with no views and a mint from "system" as its whole history; appends the same mint to the global log; the NFT count and the listed count each grow by one |
| MusicLedger.Ledger.ListNfts | src/music-collab-backend/src/lib.rs:238-243 | returns exactly the stored NFTs, one per stored id |
| MusicLedger.Ledger.GetNft | src/music-collab-backend/src/lib.rs:245-257 | an unknown id returns nothing and changes nothing; otherwise the view count goes up by one and the updated record is returned |
| MusicLedger.Ledger.BuyNft | src/music-collab-backend/src/lib.rs:259-326 | errors, in order: unknown NFT, not for sale, buyer already owns it, each leaving all state unchanged; succeeds exactly when none applies. On success the buyer becomes owner and the sale joins the NFT's history and the global log; a positive royalty is paid to the creator; seller and royalty shares add up to the price; one more sale of that price is counted; the listing flag and the price are kept |
| MusicLedger.Ledger.Settle | src/music-collab-backend/src/lib.rs:274-321 | the settlement step of a purchase whose checks passed: the buyer becomes owner, the sale joins the NFT's history and the global log, a positive royalty is paid to the creator, the shares add up to the price, and one more sale of that price is counted; the invariant is kept |
| MusicLedger.Ledger.UpdateNftPrice | src/music-collab-backend/src/lib.rs:328-346 | unknown NFT and an `owner` argument other than the current owner are refused with nothing changed; succeeds exactly when the `owner` argument names the current owner, reporting old and new price and changing only the price |
| MusicLedger.Ledger.SetNftForSale | src/music-collab-backend/src/lib.rs:348-369 | unknown NFT and an `owner` argument other than the current owner are refused with nothing changed; succeeds exactly when the `owner` argument names the current owner, changing only the listing flag and reporting it |
| MusicLedger.Ledger.GetNftTransactions | src/music-collab-backend/src/lib.rs:371-379 | an unknown NFT has no history; a stored NFT's result is its stored history, which starts with its mint to the creator, continues with one sale from each holder to the next, holds exactly one mint, and ends with a transaction to the current owner |
| MusicLedger.Ledger.GetUserNfts | src/music-collab-backend/src/lib.rs:381-390 | returns exactly the stored NFTs currently owned by the user |
| MusicLedger.Ledger.GetUserCreatedNfts | src/music-collab-backend/src/lib.rs:392-401 | returns exactly the stored NFTs minted by the creator |
| MusicLedger.Ledger.GetUserRoyaltyEarnings | src/music-collab-backend/src/lib.rs:403-412 | returns the logged payments to the user in log order, repeats included (the filter `RoyaltiesTo`); each is positive and was paid on a stored NFT the user created |
| MusicLedger.Ledger.GetMarketplaceStats | src/music-collab-backend/src/lib.rs:414-438 | the NFT total equals both the store size and the number of mints logged; the listed count is the number of NFTs flagged for sale, at most the total; the sale count and volume are the number and summed price of the logged sales; sales plus NFTs equal the whole log; the volume is 0 when there are no sales |
| Records.MintTx | src/music-collab-backend/src/lib.rs:202-208 | a mint transaction is free, comes from the "system" account, goes to the creator and carries the mint time |
| Records.SaleTx | src/music-collab-backend/src/lib.rs:289-295 | a sale transaction goes from the seller to the buyer at the sale price and time |
| Records.WithContributor | src/music-collab-backend/src/lib.rs:156-159 | the contributor ends up listed; membership is the old list plus that contributor; the old list is a prefix; the list is unchanged exactly when the contributor was already there; no duplicates are introduced |
| Records.WithContributorIdempotent | src/music-collab-backend/src/lib.rs:156-159 | adding the same contributor twice has the effect of adding it once |
| Records.RetainTracks | src/music-collab-backend/src/lib.rs:172 | keeps exactly the tracks whose id differs, never more tracks than before |
| Records.RetainTracksKeepsCounts | src/music-collab-backend/src/lib.rs:172 | each kept track keeps its multiplicity, and a list with no track of that id comes back unchanged |
| Records.RetainTracksKeepsOrder | src/music-collab-backend/src/lib.rs:172 | the remaining tracks keep their relative order |
| Records.RetainTracksIdempotent | src/music-collab-backend/src/lib.rs:172 | removing the same id twice is the same as removing it once |
| Records.RetainTracksAppendRemoved | src/music-collab-backend/src/lib.rs:123-133 | a track added with a timestamp is dropped by a later removal of that id, whatever precedes it |
| Records.SameTimestampTracksRemovedTogether | src/music-collab-backend/src/lib.rs:123 | two tracks with the same timestamp, whatever lies between them, are removed together by one removal |
| Market.RoyaltyAmount | src/music-collab-backend/src/lib.rs:279-286 | no royalty when the creator is the seller; never more than the price for a percentage up to 100 |
| Market.RoyaltyRoundsDown | src/music-collab-backend/src/lib.rs:279-284 | between different parties the royalty is the percentage of the price rounded down |
| Market.DefaultRoyalty | src/music-collab-backend/src/lib.rs:220 | at the default 10% a resale pays a tenth of the price, rounded down, which is positive exactly when the price is at least 10 |
| Market.KindCount | src/music-collab-backend/src/lib.rs:424-429 | counts at most as many transactions as the log holds |
| Market.SaleVolume | src/music-collab-backend/src/lib.rs:429-435 | the summed price of the logged sales, 0 when no sale is logged; its value is fixed by `SaleVolumeAppend` and `SaleVolumeBounds` |
| Market.KindCountZero | src/music-collab-backend/src/lib.rs:424-429 | the count of a kind is zero exactly when no transaction of that kind is logged |
| Market.KindCountsPartition | src/music-collab-backend/src/lib.rs:52 | every logged transaction is a mint or a sale, so the two counts add up to the log's length |
| Market.KindCountAppend | src/music-collab-backend/src/lib.rs:231-233 | logging one transaction raises the count of its own kind by one and leaves the other count as it was |
| Market.SaleVolumeBounds | src/music-collab-backend/src/lib.rs:430-435 | every sale's price is at most the volume; the volume is 0 when there are no sales |
| Market.SaleVolumeAppend | src/music-collab-backend/src/lib.rs:302-304 | logging a sale adds its price to the volume; logging a mint adds nothing |
| Market.RoyaltiesTo | src/music-collab-backend/src/lib.rs:405-411 | keeps exactly the payments to the user, never more than were logged |
| Market.RoyaltiesToAppend | src/music-collab-backend/src/lib.rs:307-319 | a new payment is appended to its recipient's earnings and to no one else's |
| LedgerInvariant.ListedIds | src/music-collab-backend/src/lib.rs:417-422 | exactly the ids of the stored NFTs flagged for sale, a subset of the stored ids |
| LedgerInvariant.StatsOf | src/music-collab-backend/src/lib.rs:414-438 | the four figures: stored NFTs, listed NFTs (never more than stored), logged sales (never more than logged transactions) and their summed price (0 when there are no sales) |
| LedgerInvariant.EmptyLedgerWellFormed | src/music-collab-backend/src/lib.rs:80-87 | the empty ledger with both counters at 1 satisfies the invariant |
| LedgerInvariant.CreateKeepsLedger | src/music-collab-backend/src/lib.rs:91-105 | the next project id is free, and filing an empty project under it while advancing the counter keeps the invariant |
| LedgerInvariant.ProjectEditKeepsLedger | src/music-collab-backend/src/lib.rs:118-134 | replacing a project by one with the same id and no duplicate contributors keeps the invariant |
| LedgerInvariant.MintKeepsLedger | src/music-collab-backend/src/lib.rs:192-233 | the next NFT id is free, and filing the minted NFT while logging its mint keeps the invariant |
| LedgerInvariant.MintStats | src/music-collab-backend/src/lib.rs:219-233 | filing a listed NFT under a new id and logging its mint adds one NFT and one listing and no sale to the marketplace figures |
| LedgerInvariant.NftEditKeepsLedger | src/music-collab-backend/src/lib.rs:251 | an edit of price, flag, views or description keeps the invariant; the listing moves only if the flag changes |
| LedgerInvariant.SaleExtendsCustody | src/music-collab-backend/src/lib.rs:289-299 | a sale from the owner to someone else extends the chain of custody to the buyer |
| LedgerInvariant.SaleKeepsLedger | src/music-collab-backend/src/lib.rs:289-319 | a sale to a non-owner, logged in the NFT's history and globally with its positive royalty, keeps the invariant |
| LedgerInvariant.SaleStats | src/music-collab-backend/src/lib.rs:298-304 | a sale that keeps the listing flag adds one sale and its price to the marketplace figures, leaving the NFT and listed counts as they were |
| LedgerInvariant.NftsPut | src/music-collab-backend/src/lib.rs:227-229 | filing a well-formed NFT under an id below the counter keeps the NFT store well formed |
| LedgerInvariant.PaymentsPut | src/music-collab-backend/src/lib.rs:298-299 | changing an NFT without changing its creator leaves every payment backed |
| LedgerInvariant.PaymentsPush | src/music-collab-backend/src/lib.rs:307-319 | logging a positive payment to a stored NFT's creator leaves every payment backed |
| LedgerInvariant.ListedPut | src/music-collab-backend/src/lib.rs:418-422 | filing an NFT adds its id to the listing or removes it, according to its flag, and moves no other id |
| LedgerScenario.FirstListing | src/music-collab-backend/src/lib.rs:89-236 | on a fresh ledger the first project and the first NFT both get id 1; the NFT is listed at its creator's price with 10% royalty |
| LedgerScenario.CreatorSale | src/music-collab-backend/src/lib.rs:259-326 | selling the first NFT from its creator to a buyer pays the whole price of 100 to the seller and no royalty; the buyer then owns it, it stays listed, and the figures read 1 NFT, 1 listed, 1 sale and a volume of 100 |
| LedgerScenario.ResaleScenario | src/music-collab-backend/src/lib.rs:259-326 | the creator's own sale of a 100 NFT pays 100 to the seller and no royalty; the resale pays 90 to the seller and 10 to the creator; the figures then read 1 NFT, 1 listed, 2 sales and a volume of 200 |

## Left out

- `upload_to_pinata` (lib.rs:440-550) makes an HTTP outcall to an external pinning service; it is network I/O and does not touch the ledger. `transform_response` (lib.rs:552-556) returns the response it is given unchanged; `upload_to_pinata` does not register it (`transform: None`, lib.rs:489).
- `ic_cdk::api::time()` becomes the explicit `now` parameter of `MintNft` and `BuyNft`; the clock itself is not modelled.
- Integer widths are not modelled: all counters, prices, view counts and sums are unbounded naturals. Overflow of the two id counters, of `view_count`, of `sale_price * royalty_percentage` and of the volume sum is therefore not captured.
- `royalty_percentage` is a `u8` in the source and a natural number here. It is always 10, so the narrower type never matters.
- HashMap iteration order: `list_projects`, `list_nfts`, `get_user_nfts` and `get_user_created_nfts` return sets, because the source's order is unspecified.
- Message strings: the exact text of each `Ok`/`Err` message is replaced by the structured values described above. The royalty payment's `transaction_id`, the string `"{nft_id}_{timestamp}"`, is the pair `TxRef(nftId, timestamp)`.
- `transaction_type` is a string in the source; the model has only the two kinds the ledger ever writes, mint and sale. A `"transfer"` kind is mentioned in a comment but never created.
- MusicLedger.Ledger.GetNft: the model keeps the view-count increment as a lasting state change. It does not model the host platform's treatment of state changes made during query calls.
- Persistence across upgrades, concurrency and inter-canister payment transfers do not exist in this code and are not modelled.
