/** Transactions, pool entries and the order of the priority index (abcipp/mempool.go, abcipp/mempool_tier.go). */
module MempoolTypes {
  import opened Common

  function Max(a: nat, b: nat): nat { if a < b then b else a }

  function Min(a: int, b: int): int { if a < b then a else b }

  /** `txKey`: the pool slot a transaction competes for. */
  datatype Key = Key(sender: string, nonce: nat)

  /** The parts of an `sdk.Tx` the pool looks at. `signer` is None when no first signature can be extracted,
      `gasLimit` is None when the transaction is no FeeTx, `encoding` is None when the encoder fails. */
  datatype Tx = Tx(signer: Option<Key>, gasLimit: Option<nat>, encoding: Option<Bytes>, queuedExt: bool)

  /** The part of a `txEntry` that never changes once the entry exists. */
  datatype Item = Item(tx: Tx, key: Key, priority: int, size: int, gas: nat, bytes: Bytes)

  /** `clampedPriority` and `clampedOrder`. */
  datatype Rank = Rank(score: int, order: int)

  /** A `txEntry`; `order`, `tier` and `clamped` are rewritten when the entry is promoted or demoted. */
  datatype Entry = Entry(item: Item, order: int, tier: int, clamped: Rank)

  /** `queuedTier`. */
  const QUEUED_TIER := -1

  /** The consensus block parameters; absent when `ConsensusParams().Block` is nil. */
  datatype BlockLimits = BlockLimits(maxBytes: int, maxGas: int)

  /** The parts of an `sdk.Context` the pool reads. */
  datatype Ctx = Ctx(priority: int, txBytes: Bytes, block: Option<BlockLimits>)

  datatype Tier = Tier(name: string, matches: (Ctx, Tx) -> bool)

  datatype Config = Config(maxTx: int, maxQueuedPerSender: int, maxQueuedTotal: int, queuedGapTTL: int,
                           tiers: seq<Tier>)
  {
    /** What the constructor guarantees: positive limits, and named tiers with at least the default one. */
    predicate Valid() {
      && maxQueuedPerSender > 0 && maxQueuedTotal > 0 && queuedGapTTL > 0
      && |tiers| > 0 && (forall i :: 0 <= i < |tiers| ==> tiers[i].name != "")
    }
  }

  /** The constructor's defaults: 64 queued per sender, 1024 in all, and one minute in nanoseconds. */
  function WithDefaults(maxTx: int, maxQueuedPerSender: int, maxQueuedTotal: int, queuedGapTTL: int,
                        tiers: seq<Tier>): Config
  {
    Config(maxTx,
           if maxQueuedPerSender <= 0 then 64 else maxQueuedPerSender,
           if maxQueuedTotal <= 0 then 1024 else maxQueuedTotal,
           if queuedGapTTL <= 0 then 60_000_000_000 else queuedGapTTL,
           tiers)
  }

  datatype Reason = CapacityEvicted | CommittedInBlock | AnteRejectedInPrepare

  datatype EventType = TxInserted | TxRemoved | TxQueued

  datatype Event = Event(kind: EventType, tx: Bytes)

  datatype Error =
    | Ok
    | NoSigner
    | EncodeFailed
    | NotFeeTx
    | SequenceUnavailable
    | StaleSequence
    | MissingQueuedExtension
    | LowerPriority
    | MaxCapacity
    | TxNotFound

  // ---- tiers ----------------------------------------------------------------------------------

  /** The first matching tier at or after `i`, or the last tier when none matches. */
  function TierFrom(tiers: seq<Tier>, i: nat, ctx: Ctx, tx: Tx): (t: int)
    requires i <= |tiers|
    ensures |tiers| > 0 ==> 0 <= t < |tiers|
    ensures (exists j :: i <= j < |tiers| && tiers[j].matches(ctx, tx)) ==>
              i <= t < |tiers| && tiers[t].matches(ctx, tx) && (forall j :: i <= j < t ==> !tiers[j].matches(ctx, tx))
    ensures (forall j :: i <= j < |tiers| ==> !tiers[j].matches(ctx, tx)) ==> t == |tiers| - 1
    decreases |tiers| - i
  {
    if i == |tiers| then |tiers| - 1
    else if tiers[i].matches(ctx, tx) then i
    else TierFrom(tiers, i + 1, ctx, tx)
  }

  function TierName(tiers: seq<Tier>, tier: int): string {
    if 0 <= tier < |tiers| then tiers[tier].name else ""
  }

  const TIER_PENALTY := 0x4_0000_0000_0000

  /** `scoreByTierPriority`, over unbounded integers. */
  function Score(tier: int, priority: int): int {
    priority - tier * TIER_PENALTY
  }

  // ---- the index order ------------------------------------------------------------------------

  /** `isBetterThan` and the clamp test: a higher score wins, then the lower order. */
  predicate Outranks(a: Rank, b: Rank) {
    a.score > b.score || (a.score == b.score && a.order < b.order)
  }

  /** `strings.Compare(a, b) < 0`. */
  predicate StrLess(a: string, b: string)
    decreases |a|
  {
    b != [] && (a == [] || a[0] < b[0] || (a[0] == b[0] && StrLess(a[1..], b[1..])))
  }

  predicate KeyLess(a: Key, b: Key) {
    StrLess(a.sender, b.sender) || (a.sender == b.sender && a.nonce < b.nonce)
  }

  /** `compareEntries`, branch by branch. */
  function Compare(left: Entry, right: Entry): int {
    if left.clamped.score != right.clamped.score then
      if left.clamped.score > right.clamped.score then -1 else 1
    else if left.clamped.order != right.clamped.order then
      if left.clamped.order < right.clamped.order then -1 else 1
    else if left.item.key.sender == right.item.key.sender && left.item.key.nonce != right.item.key.nonce then
      if left.item.key.nonce < right.item.key.nonce then -1 else 1
    else if left.item.key.sender != right.item.key.sender then
      if StrLess(left.item.key.sender, right.item.key.sender) then -1 else 1
    else 0
  }

  /** `left` stands before `right` in the priority index. */
  predicate Before(left: Entry, right: Entry) {
    Outranks(left.clamped, right.clamped) ||
    (left.clamped == right.clamped && KeyLess(left.item.key, right.item.key))
  }

  lemma {:induction false} StrLessTotal(a: string, b: string)
    ensures StrLess(a, b) ==> !StrLess(b, a) && a != b
    ensures StrLess(a, b) || StrLess(b, a) || a == b
    decreases |a|
  {
    if a != [] && b != [] && a[0] == b[0] {
      StrLessTotal(a[1..], b[1..]);
      assert a == [a[0]] + a[1..] && b == [b[0]] + b[1..];
    }
  }

  lemma {:induction false} StrLessTransitive(a: string, b: string, c: string)
    requires StrLess(a, b) && StrLess(b, c)
    ensures StrLess(a, c)
    decreases |a|
  {
    if a != [] && a[0] == b[0] && b[0] == c[0] {
      StrLessTransitive(a[1..], b[1..], c[1..]);
    }
  }

  /** compareEntries decides exactly `Before`, is antisymmetric, and ties only within one pool slot. */
  lemma CompareIsBefore(a: Entry, b: Entry)
    ensures Compare(a, b) < 0 <==> Before(a, b)
    ensures Compare(a, b) > 0 <==> Before(b, a)
    ensures Compare(a, b) == -Compare(b, a)
    ensures Compare(a, b) == 0 ==> a.item.key == b.item.key
  {
    StrLessTotal(a.item.key.sender, b.item.key.sender);
  }

  lemma BeforeTotal(a: Entry, b: Entry)
    ensures Before(a, b) ==> !Before(b, a)
    ensures a.item.key != b.item.key ==> Before(a, b) || Before(b, a)
    ensures !Before(a, a)
  {
    StrLessTotal(a.item.key.sender, b.item.key.sender);
    StrLessTotal(a.item.key.sender, a.item.key.sender);
  }

  lemma BeforeTransitive(a: Entry, b: Entry, c: Entry)
    requires Before(a, b) && Before(b, c)
    ensures Before(a, c)
  {
    if StrLess(a.item.key.sender, b.item.key.sender) && StrLess(b.item.key.sender, c.item.key.sender) {
      StrLessTransitive(a.item.key.sender, b.item.key.sender, c.item.key.sender);
    }
  }

  // ---- the skip list as a sorted sequence -----------------------------------------------------

  ghost predicate Sorted(ix: seq<Entry>) {
    forall i, j :: 0 <= i < j < |ix| ==> Before(ix[i], ix[j])
  }

  /** The index holds exactly the entries of `active`, in index order. */
  ghost predicate Indexes(ix: seq<Entry>, active: map<Key, Entry>) {
    && Sorted(ix)
    && (forall e {:trigger e in ix} :: e in ix ==> e.item.key in active && active[e.item.key] == e)
    && (forall k {:trigger k in active} :: k in active ==> active[k] in ix)
  }

  /** `SkipList.Set`: insert in order; an entry comparing equal is replaced. */
  function IndexSet(ix: seq<Entry>, e: Entry): (r: seq<Entry>)
    ensures forall x :: x in r ==> x == e || x in ix
    ensures e in r
  {
    if ix == [] || Before(e, ix[0]) then [e] + ix
    else if Before(ix[0], e) then [ix[0]] + IndexSet(ix[1..], e)
    else [e] + ix[1..]
  }

  /** `SkipList.Remove`: drop the entry comparing equal. */
  function IndexRemove(ix: seq<Entry>, e: Entry): (r: seq<Entry>)
    ensures forall x :: x in r ==> x in ix
  {
    if ix == [] || Before(e, ix[0]) then ix
    else if Before(ix[0], e) then [ix[0]] + IndexRemove(ix[1..], e)
    else ix[1..]
  }

  lemma SortedTail(ix: seq<Entry>)
    requires Sorted(ix) && ix != []
    ensures Sorted(ix[1..])
    ensures forall x :: x in ix[1..] ==> Before(ix[0], x)
  {
  }

  lemma SortedCons(e: Entry, ix: seq<Entry>)
    requires Sorted(ix)
    requires forall x :: x in ix ==> Before(e, x)
    ensures Sorted([e] + ix)
  {
    var r := [e] + ix;
    forall i, j | 0 <= i < j < |r| ensures Before(r[i], r[j]) {
      assert r[j] == ix[j - 1];
      if i > 0 { assert r[i] == ix[i - 1]; }
    }
  }

  /** Setting an entry whose slot is not yet indexed keeps order and adds just that entry. */
  lemma {:induction false} IndexSetAdds(ix: seq<Entry>, e: Entry)
    requires Sorted(ix)
    requires forall x {:trigger x in ix} :: x in ix ==> x.item.key != e.item.key
    ensures Sorted(IndexSet(ix, e))
    ensures forall x :: x in IndexSet(ix, e) <==> x == e || x in ix
    ensures |IndexSet(ix, e)| == |ix| + 1
  {
    if ix != [] {
      assert ix[0] in ix;
      BeforeTotal(e, ix[0]);
      SortedTail(ix);
      if Before(e, ix[0]) {
        forall x | x in ix ensures Before(e, x) {
          if x != ix[0] { assert x in ix[1..]; BeforeTransitive(e, ix[0], x); }
        }
        SortedCons(e, ix);
      } else {
        assert forall x :: x in ix[1..] ==> x in ix;
        IndexSetAdds(ix[1..], e);
        SortedCons(ix[0], IndexSet(ix[1..], e));
        assert ix == [ix[0]] + ix[1..];
      }
    }
  }

  /** Removing an indexed entry keeps order and drops just that entry. */
  lemma {:induction false} IndexRemoveDrops(ix: seq<Entry>, e: Entry)
    requires Sorted(ix) && e in ix
    ensures Sorted(IndexRemove(ix, e))
    ensures forall x :: x in IndexRemove(ix, e) <==> x in ix && x != e
    ensures |IndexRemove(ix, e)| == |ix| - 1
  {
    SortedTail(ix);
    BeforeTotal(e, e);
    BeforeTotal(ix[0], e);
    assert ix == [ix[0]] + ix[1..];
    if e != ix[0] {
      assert e in ix[1..];
      IndexRemoveDrops(ix[1..], e);
      SortedCons(ix[0], IndexRemove(ix[1..], e));
      BeforeTotal(ix[0], ix[0]);
    }
  }
}
