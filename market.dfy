/**
 * The arithmetic of the marketplace: the royalty split of a sale and the
 * counts and sums over the global transaction log and the royalty log.
 */
module Market {
  import opened Records

  /**
   * The royalty owed to the creator on a sale: `price * percentage / 100`,
   * rounded down, when the creator is not the seller, and nothing otherwise.
   */
  function RoyaltyAmount(price: nat, percentage: nat, creator: string, seller: string): (royalty: nat)
    ensures creator == seller ==> royalty == 0
    ensures percentage <= 100 ==> royalty <= price
  {
    if creator != seller then price * percentage / 100 else 0
  }

  /**
   * Between distinct parties the royalty is the largest whole amount not
   * exceeding `percentage` percent of the price: the rounding never favours
   * the creator by even one unit.
   */
  lemma RoyaltyRoundsDown(price: nat, percentage: nat, creator: string, seller: string)
    requires creator != seller
    ensures var royalty := RoyaltyAmount(price, percentage, creator, seller);
      royalty * 100 <= price * percentage < (royalty + 1) * 100
  {
  }

  /**
   * At the default rate a resale pays the creator a tenth of the price,
   * rounded down, which is positive exactly when the price is at least 10.
   */
  lemma DefaultRoyalty(price: nat, creator: string, seller: string)
    requires creator != seller
    ensures RoyaltyAmount(price, DEFAULT_ROYALTY_PERCENTAGE, creator, seller) == price / 10
    ensures RoyaltyAmount(price, DEFAULT_ROYALTY_PERCENTAGE, creator, seller) > 0 <==> price >= 10
  {
    var royalty := RoyaltyAmount(price, DEFAULT_ROYALTY_PERCENTAGE, creator, seller);
    RoyaltyRoundsDown(price, DEFAULT_ROYALTY_PERCENTAGE, creator, seller);
    assert royalty * 10 <= price < (royalty + 1) * 10;
  }

  /** The number of transactions of the given kind in the log. */
  function KindCount(txs: seq<Transaction>, kind: TxKind): (n: nat)
    ensures n <= |txs|
  {
    if txs == [] then 0
    else (if txs[0].kind == kind then 1 else 0) + KindCount(txs[1..], kind)
  }

  /** The summed price of the sale transactions in the log. */
  function SaleVolume(txs: seq<Transaction>): (v: nat)
    ensures KindCount(txs, Sale) == 0 ==> v == 0
  {
    if txs == [] then 0
    else (if txs[0].kind == Sale then txs[0].price else 0) + SaleVolume(txs[1..])
  }

  /** No transaction of a kind is counted exactly when the log holds none of that kind. */
  lemma {:induction false} KindCountZero(txs: seq<Transaction>, kind: TxKind)
    ensures KindCount(txs, kind) == 0 <==> forall i :: 0 <= i < |txs| ==> txs[i].kind != kind
  {
    if txs != [] {
      KindCountZero(txs[1..], kind);
      assert forall i :: 1 <= i < |txs| ==> txs[i] == txs[1..][i - 1];
    }
  }

  /**
   * The volume is at least the price of every logged sale, and is zero when
   * no sale is logged.
   */
  lemma {:induction false} SaleVolumeBounds(txs: seq<Transaction>)
    ensures forall i :: 0 <= i < |txs| && txs[i].kind == Sale ==> txs[i].price <= SaleVolume(txs)
    ensures KindCount(txs, Sale) == 0 ==> SaleVolume(txs) == 0
  {
    if txs != [] {
      SaleVolumeBounds(txs[1..]);
      assert forall i :: 1 <= i < |txs| ==> txs[i] == txs[1..][i - 1];
    }
  }

  /** Every logged transaction is either a mint or a sale. */
  lemma {:induction false} KindCountsPartition(txs: seq<Transaction>)
    ensures KindCount(txs, Mint) + KindCount(txs, Sale) == |txs|
  {
    if txs != [] {
      KindCountsPartition(txs[1..]);
    }
  }

  /** Logging one more transaction raises the count of its own kind by one and leaves the other kind's count alone. */
  lemma {:induction false} KindCountAppend(txs: seq<Transaction>, t: Transaction, kind: TxKind)
    ensures KindCount(txs + [t], kind) == KindCount(txs, kind) + (if t.kind == kind then 1 else 0)
  {
    if txs == [] {
      assert KindCount([t], kind) == (if t.kind == kind then 1 else 0) + KindCount([t][1..], kind);
    } else {
      assert (txs + [t])[0] == txs[0] && (txs + [t])[1..] == txs[1..] + [t];
      KindCountAppend(txs[1..], t, kind);
    }
  }

  /** Logging a sale adds its price to the volume; logging a mint leaves the volume as it was. */
  lemma {:induction false} SaleVolumeAppend(txs: seq<Transaction>, t: Transaction)
    ensures SaleVolume(txs + [t]) == SaleVolume(txs) + (if t.kind == Sale then t.price else 0)
  {
    if txs == [] {
      assert SaleVolume([t]) == (if t.kind == Sale then t.price else 0) + SaleVolume([t][1..]);
    } else {
      assert (txs + [t])[0] == txs[0] && (txs + [t])[1..] == txs[1..] + [t];
      SaleVolumeAppend(txs[1..], t);
    }
  }

  /** The royalty payments made to `user`, in the order they were recorded. */
  function RoyaltiesTo(ps: seq<RoyaltyPayment>, user: string): (r: seq<RoyaltyPayment>)
    ensures |r| <= |ps|
    ensures forall p :: p in r <==> p in ps && p.recipient == user
  {
    if ps == [] then []
    else if ps[0].recipient == user then
      assert ps == [ps[0]] + ps[1..];
      [ps[0]] + RoyaltiesTo(ps[1..], user)
    else
      assert ps == [ps[0]] + ps[1..];
      RoyaltiesTo(ps[1..], user)
  }

  /** Logging a payment adds it to the end of its recipient's earnings and leaves everyone else's as they were. */
  lemma {:induction false} RoyaltiesToAppend(ps: seq<RoyaltyPayment>, p: RoyaltyPayment, user: string)
    ensures RoyaltiesTo(ps + [p], user)
            == RoyaltiesTo(ps, user) + (if p.recipient == user then [p] else [])
  {
    if ps == [] {
      assert RoyaltiesTo([p], user) == (if p.recipient == user then [p] else []) + RoyaltiesTo([p][1..], user);
    } else {
      assert (ps + [p])[0] == ps[0] && (ps + [p])[1..] == ps[1..] + [p];
      RoyaltiesToAppend(ps[1..], p, user);
    }
  }
}
