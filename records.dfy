/**
 * The records the ledger stores (projects, tracks, NFTs, transactions and
 * royalty payments) and the per-record updates that the entry points apply
 * to a single project.
 */
module Records {

  /** The `from` party of every mint transaction. */
  const SYSTEM: string := "system"

  /** The royalty percentage every NFT receives when it is minted. */
  const DEFAULT_ROYALTY_PERCENTAGE: nat := 10

  datatype Track = Track(
    id: nat,
    name: string,
    ipfsHash: string,
    uploadedBy: string,
    timestamp: nat)

  datatype Project = Project(
    id: nat,
    title: string,
    description: string,
    owner: string,
    contributors: seq<string>,
    tracks: seq<Track>)

  /** The `transaction_type` of a transaction; the ledger only ever writes these two. */
  datatype TxKind = Mint | Sale

  datatype Transaction = Transaction(
    from: string,
    to: string,
    price: nat,
    timestamp: nat,
    kind: TxKind)

  datatype Nft = Nft(
    id: nat,
    name: string,
    description: string,
    imageUrl: string,
    creator: string,
    currentOwner: string,
    projectId: nat,
    price: nat,
    isForSale: bool,
    royaltyPercentage: nat,
    createdAt: nat,
    viewCount: nat,
    saleHistory: seq<Transaction>,
    category: string)

  /** The identifier of the sale a royalty was paid for: the NFT id and the sale's timestamp. */
  datatype TxRef = TxRef(nftId: nat, timestamp: nat)

  datatype RoyaltyPayment = RoyaltyPayment(
    recipient: string,
    amount: nat,
    nftId: nat,
    transactionId: TxRef)

  /** The transaction recorded when `creator` mints an NFT at time `now`: free, from the system account. */
  function MintTx(creator: string, now: nat): (t: Transaction)
    ensures t.kind == Mint && t.from == SYSTEM && t.to == creator && t.price == 0 && t.timestamp == now
  {
    Transaction(SYSTEM, creator, 0, now, Mint)
  }

  /** The transaction recorded when `seller` sells to `buyer` for `price` at time `now`. */
  function SaleTx(seller: string, buyer: string, price: nat, now: nat): (t: Transaction)
    ensures t.kind == Sale && t.from == seller && t.to == buyer && t.price == price && t.timestamp == now
  {
    Transaction(seller, buyer, price, now, Sale)
  }

  predicate NoDuplicates<T(==)>(s: seq<T>) {
    forall i, j :: 0 <= i < j < |s| ==> s[i] != s[j]
  }

  /**
   * The contributor list after adding `c`: appended at the end unless it is
   * already present, in which case the list is left as it is.
   */
  function WithContributor(cs: seq<string>, c: string): (r: seq<string>)
    ensures c in r
    ensures forall x :: x in r <==> x in cs || x == c
    ensures |cs| <= |r| <= |cs| + 1 && r[..|cs|] == cs
    ensures c in cs <==> r == cs
    ensures NoDuplicates(cs) ==> NoDuplicates(r)
  {
    if c in cs then cs else cs + [c]
  }

  /** Adding the same contributor a second time changes nothing. */
  lemma WithContributorIdempotent(cs: seq<string>, c: string)
    ensures WithContributor(WithContributor(cs, c), c) == WithContributor(cs, c)
  {
  }

  /**
   * The tracks kept by `retain(|track| track.id != trackId)`: every track
   * whose id differs from `trackId`, in their original order.
   */
  function RetainTracks(ts: seq<Track>, trackId: nat): (r: seq<Track>)
    ensures |r| <= |ts|
    ensures forall t :: t in r <==> t in ts && t.id != trackId
  {
    if ts == [] then []
    else if ts[0].id != trackId then
      assert ts == [ts[0]] + ts[1..];
      [ts[0]] + RetainTracks(ts[1..], trackId)
    else
      assert ts == [ts[0]] + ts[1..];
      RetainTracks(ts[1..], trackId)
  }

  /** Every kept track is kept as many times as it occurs, and a list without the id is kept whole. */
  lemma {:induction false} RetainTracksKeepsCounts(ts: seq<Track>, trackId: nat)
    ensures forall t: Track :: t.id != trackId ==> multiset(RetainTracks(ts, trackId))[t] == multiset(ts)[t]
    ensures (forall i :: 0 <= i < |ts| ==> ts[i].id != trackId) ==> RetainTracks(ts, trackId) == ts
  {
    if ts != [] {
      RetainTracksKeepsCounts(ts[1..], trackId);
      assert ts == [ts[0]] + ts[1..];
      assert multiset(ts) == multiset{ts[0]} + multiset(ts[1..]);
    }
  }

  /** `a` is `b` with some elements deleted, the rest in their original order. */
  ghost predicate IsSubsequence<T>(a: seq<T>, b: seq<T>)
    decreases |b|
  {
    |a| <= |b| &&
    (a == [] || (a[0] == b[0] && IsSubsequence(a[1..], b[1..])) || IsSubsequence(a, b[1..]))
  }

  /** Removing tracks keeps the remaining tracks in their relative order. */
  lemma {:induction false} RetainTracksKeepsOrder(ts: seq<Track>, trackId: nat)
    ensures IsSubsequence(RetainTracks(ts, trackId), ts)
  {
    if ts != [] {
      RetainTracksKeepsOrder(ts[1..], trackId);
      var r := RetainTracks(ts, trackId);
      if ts[0].id != trackId {
        assert r[0] == ts[0] && r[1..] == RetainTracks(ts[1..], trackId);
      } else {
        assert r == RetainTracks(ts[1..], trackId);
      }
    }
  }

  /** Removing the same track id twice has the effect of removing it once. */
  lemma RetainTracksIdempotent(ts: seq<Track>, trackId: nat)
    ensures RetainTracks(RetainTracks(ts, trackId), trackId) == RetainTracks(ts, trackId)
  {
  }

  /**
   * A track's id is its upload timestamp, so two uploads with one timestamp
   * share an id and a single removal drops both, with whatever lies between
   * them reduced as usual.
   */
  lemma SameTimestampTracksRemovedTogether(a: Track, b: Track, rest: seq<Track>)
    requires a.id == b.id
    ensures RetainTracks([a] + rest + [b], a.id) == RetainTracks(rest, a.id)
  {
    var ts := [a] + rest + [b];
    assert ts[1..] == rest + [b];
    RetainTracksAppendRemoved(rest, b, a.id);
  }

  /** A track added last under the removed id is dropped, and the tracks before it are reduced as usual. */
  lemma {:induction false} RetainTracksAppendRemoved(ts: seq<Track>, t: Track, trackId: nat)
    requires t.id == trackId
    ensures RetainTracks(ts + [t], trackId) == RetainTracks(ts, trackId)
  {
    if ts == [] {
      assert RetainTracks([t], trackId) == RetainTracks([t][1..], trackId);
    } else {
      assert (ts + [t])[0] == ts[0] && (ts + [t])[1..] == ts[1..] + [t];
      RetainTracksAppendRemoved(ts[1..], t, trackId);
    }
  }
}
