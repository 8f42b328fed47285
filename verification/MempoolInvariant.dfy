/** The pool invariant of abcipp/mempool_invariant.go, strengthened, with the cursor, the last entry of the index, and
    queueing. */
module MempoolInvariant {
  import opened Common
  import opened MempoolTypes
  import opened MempoolState

  /** Every entry sits in the slot its key names, of a registered sender, and no slot is both active and queued. */
  ghost predicate Keyed(s: State) {
    && (forall k {:trigger k in s.active} :: k in s.active ==> s.active[k].item.key == k && k.sender in s.infos)
    && (forall k {:trigger k in s.queued} :: k in s.queued ==>
          s.queued[k].item.key == k && k.sender in s.infos && k !in s.active)
  }

  /** A sender's active nonces form a gap-free run that starts exactly at its cached on-chain sequence. */
  ghost predicate Contiguous(s: State)
    requires Keyed(s)
  {
    && (forall k {:trigger k in s.active} :: k in s.active ==> s.infos[k.sender].seqNo <= k.nonce)
    && (forall k, n: nat {:trigger k in s.active, Key(k.sender, n) in s.active} ::
          k in s.active && s.infos[k.sender].seqNo <= n <= k.nonce ==> Key(k.sender, n) in s.active)
  }

  /** Queued nonces lie at or beyond the next expected nonce. */
  ghost predicate QueueBeyond(s: State)
    requires Keyed(s)
  {
    && (forall q {:trigger q in s.queued} :: q in s.queued ==> s.infos[q.sender].seqNo <= q.nonce)
    && (forall q, k {:trigger q in s.queued, k in s.active} ::
          q in s.queued && k in s.active && k.sender == q.sender ==> k.nonce < q.nonce)
  }

  /** Within a sender, clamped ranks never improve as the nonce grows. */
  ghost predicate RanksFall(active: map<Key, Entry>) {
    forall j, k {:trigger j in active, k in active} ::
      j in active && k in active && j.sender == k.sender && j.nonce < k.nonce ==>
      !Outranks(active[k].clamped, active[j].clamped)
  }

  ghost predicate Stamped(c: Config, s: State) {
    forall k {:trigger k in s.active} :: k in s.active ==>
      var e := s.active[k];
      && 0 <= e.tier < |c.tiers|
      && e.clamped.order <= e.order <= s.order
      && e.clamped.score <= Score(e.tier, e.item.priority)
  }

  ghost predicate Bounded(c: Config, s: State) {
    && (c.maxTx > 0 ==> |s.active| <= c.maxTx)
    && (forall sender :: |NoncesOf(s.queued, sender)| <= c.maxQueuedPerSender)
    && |s.queued| <= c.maxQueuedTotal + c.maxQueuedPerSender
  }

  ghost predicate Inv(c: Config, s: State) {
    && c.Valid()
    && Keyed(s) && Contiguous(s) && QueueBeyond(s)
    && RanksFall(s.active) && Stamped(c, s) && Bounded(c, s)
  }

  // ---- the cursor -----------------------------------------------------------------------------

  /** The next expected nonce is the one just past the active run. */
  lemma NextIsRunEnd(s: State, sender: string)
    requires Keyed(s) && Contiguous(s) && sender in s.infos
    ensures Next(s, sender) >= s.infos[sender].seqNo
    ensures forall n: nat {:trigger Key(sender, n) in s.active} ::
              Key(sender, n) in s.active <==> s.infos[sender].seqNo <= n < Next(s, sender)
  {
    var a := NoncesOf(s.active, sender);
    if a != {} {
      var tail := Key(sender, MaxOf(a));
      assert tail in s.active;
    }
  }

  /** Characterizes the cursor by the run it ends. */
  lemma NextUnique(s: State, sender: string, n: nat)
    requires Keyed(s) && Contiguous(s) && sender in s.infos
    requires s.infos[sender].seqNo <= n
    requires forall m: nat {:trigger Key(sender, m) in s.active} ::
               Key(sender, m) in s.active <==> s.infos[sender].seqNo <= m < n
    ensures Next(s, sender) == n
  {
    NextIsRunEnd(s, sender);
    assert Key(sender, n) !in s.active && Key(sender, Next(s, sender)) !in s.active;
  }

  lemma QueuedAtLeastNext(s: State, k: Key)
    requires Keyed(s) && Contiguous(s) && QueueBeyond(s) && k in s.queued
    ensures k.nonce >= Next(s, k.sender)
  {
    NextIsRunEnd(s, k.sender);
    assert Key(k.sender, k.nonce) !in s.active;
  }

  // ---- the last entry of the index ------------------------------------------------------------

  ghost predicate WellKeyed(m: map<Key, Entry>) {
    forall k {:trigger k in m} :: k in m ==> m[k].item.key == k
  }

  ghost predicate LastAmong(active: map<Key, Entry>, ks: set<Key>, k: Key)
    requires ks <= active.Keys
  {
    k in ks && forall j :: j in ks && j != k ==> Before(active[j], active[k])
  }

  /** The later of two last entries is the last of both. */
  lemma LastOfBoth(active: map<Key, Entry>, ks: set<Key>, x: Key, y: Key)
    requires WellKeyed(active) && ks <= active.Keys && x in active && x !in ks && LastAmong(active, ks, y)
    ensures LastAmong(active, ks + {x}, if Before(active[x], active[y]) then y else x)
  {
    hide Before;
    BeforeTotal(active[x], active[y]);
    if !Before(active[x], active[y]) {
      forall j | j in ks ensures Before(active[j], active[x]) {
        if j != y { BeforeTransitive(active[j], active[y], active[x]); }
      }
    }
  }

  lemma {:induction false} LastExists(active: map<Key, Entry>, ks: set<Key>) returns (k: Key)
    requires WellKeyed(active) && ks <= active.Keys && ks != {}
    ensures LastAmong(active, ks, k)
    decreases |ks|
  {
    var x :| x in ks;
    k := x;
    if ks != {x} {
      var y := LastExists(active, ks - {x});
      hide LastAmong, Before;
      LastOfBoth(active, ks - {x}, x, y);
      assert ks - {x} + {x} == ks;
      k := if Before(active[x], active[y]) then y else x;
    }
  }

  lemma NonemptyHasLast(s: State)
    requires Keyed(s) && s.active != map[]
    ensures HasLast(s.active)
  {
    var k := LastExists(s.active, s.active.Keys);
    assert IsLast(s.active, s.active[k]);
  }

  lemma LastUnique(active: map<Key, Entry>, a: Entry, b: Entry)
    requires IsLast(active, a) && IsLast(active, b)
    ensures a == b
  {
    BeforeTotal(a, b);
  }

  /** The last entry of the index is the tail of its sender's run, so evicting it opens no hole. */
  lemma LastIsTail(s: State, e: Entry, n: nat)
    requires Keyed(s) && RanksFall(s.active) && IsLast(s.active, e)
    requires Key(e.item.key.sender, n) in s.active
    ensures n <= e.item.key.nonce
  {
    var k := Key(e.item.key.sender, n);
    if n > e.item.key.nonce {
      assert Before(s.active[k], e);
      BeforeTotal(s.active[k], e);
      assert !Outranks(s.active[k].clamped, e.clamped);
      StrLessTotal(k.sender, k.sender);
    }
  }

  lemma LowerNeverOutranks(raw: Rank, bound: Rank)
    ensures !Outranks(Lower(raw, bound), bound)
    ensures Lower(raw, bound).score <= raw.score
  {
  }

  /** At the cursor the clamp is against the tail of the run, if there is one. */
  lemma ClampIsToTail(s: State, key: Key, raw: Rank)
    requires Keyed(s) && Contiguous(s)
    requires key.sender in s.infos && key.nonce == Next(s, key.sender)
    ensures forall k {:trigger k in s.active} :: k in s.active && k.sender == key.sender ==>
              && k.nonce < key.nonce
              && Key(key.sender, key.nonce - 1) in s.active
              && Clamp(s.active, key, raw) == Lower(raw, s.active[Key(key.sender, key.nonce - 1)].clamped)
    ensures (forall k :: k in s.active ==> k.sender != key.sender) ==> Clamp(s.active, key, raw) == raw
  {
    NextIsRunEnd(s, key.sender);
    forall k | k in s.active && k.sender == key.sender
      ensures k.nonce < key.nonce && Key(key.sender, key.nonce - 1) in s.active
    {
      assert Key(key.sender, k.nonce) in s.active;
    }
    if forall k :: k in s.active ==> k.sender != key.sender {
      assert NoncesOf(s.active, key.sender) == {};
    }
  }

  /** An entry at the cursor is never ranked above any entry of its own run. */
  lemma ClampAtNext(s: State, key: Key, raw: Rank)
    requires Keyed(s) && Contiguous(s) && RanksFall(s.active)
    requires key.sender in s.infos && key.nonce == Next(s, key.sender)
    ensures Clamp(s.active, key, raw).score <= raw.score
    ensures Clamp(s.active, key, raw).order <= raw.order ||
              exists k :: k in s.active && Clamp(s.active, key, raw) == s.active[k].clamped
    ensures forall k {:trigger k in s.active} :: k in s.active && k.sender == key.sender ==>
              k.nonce < key.nonce && !Outranks(Clamp(s.active, key, raw), s.active[k].clamped)
  {
    ClampIsToTail(s, key, raw);
    var r := Clamp(s.active, key, raw);
    forall k | k in s.active && k.sender == key.sender
      ensures k.nonce < key.nonce && !Outranks(r, s.active[k].clamped)
    {
      var tail := Key(key.sender, key.nonce - 1);
      LowerNeverOutranks(raw, s.active[tail].clamped);
      assert k == tail || !Outranks(s.active[tail].clamped, s.active[k].clamped);
    }
  }

  /** Admitting an entry at its sender's cursor never evicts an entry of that sender. */
  lemma NeverEvictsOwn(c: Config, s: State, block: Option<BlockLimits>, e: Entry, raw: Rank)
    requires Inv(c, s)
    requires e.item.key.sender in s.infos && e.item.key.nonce == Next(s, e.item.key.sender)
    requires e.clamped == Clamp(s.active, e.item.key, raw)
    requires Admit(c, s, block, e, false).Evict?
    ensures var v := Admit(c, s, block, e, false).victim;
            && IsLast(s.active, v)
            && v.item.key.sender != e.item.key.sender
            && |s.active| == c.maxTx
  {
    ClampAtNext(s, e.item.key, raw);
  }

  // ---- queueing -------------------------------------------------------------------------------

  /** Two maps hold the same entries for every sender but one. */
  ghost predicate SameElsewhere(m: map<Key, Entry>, m': map<Key, Entry>, sender: string) {
    forall k: Key {:trigger k in m} {:trigger k in m'} :: k.sender != sender ==>
      (k in m <==> k in m') && (k in m ==> m[k] == m'[k])
  }

  lemma NoncesElsewhere(m: map<Key, Entry>, m': map<Key, Entry>, sender: string, other: string)
    requires SameElsewhere(m, m', sender) && other != sender
    ensures NoncesOf(m, other) == NoncesOf(m', other)
  {
    forall n: nat ensures n in NoncesOf(m, other) <==> n in NoncesOf(m', other) {
      assert Key(other, n) in m <==> Key(other, n) in m';
    }
  }

  lemma NoncesPut(m: map<Key, Entry>, k: Key, e: Entry)
    ensures NoncesOf(m[k := e], k.sender) == NoncesOf(m, k.sender) + {k.nonce}
    ensures SameElsewhere(m, m[k := e], k.sender)
  {
    assert NoncesOf(m[k := e], k.sender) == NoncesOf(m, k.sender) + {k.nonce} by {
      assert k == Key(k.sender, k.nonce);
    }
  }

  lemma SizePut(m: map<Key, Entry>, k: Key, e: Entry)
    ensures k !in m ==> |NoncesOf(m[k := e], k.sender)| == |NoncesOf(m, k.sender)| + 1 && |m[k := e]| == |m| + 1
    ensures k in m ==> NoncesOf(m[k := e], k.sender) == NoncesOf(m, k.sender) && |m[k := e]| == |m|
  {
    NoncesPut(m, k, e);
    assert k.nonce in NoncesOf(m, k.sender) <==> Key(k.sender, k.nonce) in m;
    assert m[k := e].Keys == m.Keys + {k};
    assert k in m ==> m.Keys + {k} == m.Keys;
    assert |m[k := e].Keys| == |m[k := e]| && |m.Keys| == |m|;
    assert k.nonce in NoncesOf(m, k.sender) ==> NoncesOf(m, k.sender) + {k.nonce} == NoncesOf(m, k.sender);
  }

  lemma NoncesDrop(m: map<Key, Entry>, k: Key)
    ensures NoncesOf(m - {k}, k.sender) == NoncesOf(m, k.sender) - {k.nonce}
    ensures SameElsewhere(m, m - {k}, k.sender)
  {
    assert NoncesOf(m - {k}, k.sender) == NoncesOf(m, k.sender) - {k.nonce} by {
      assert k == Key(k.sender, k.nonce);
    }
  }

  lemma SizeDrop(m: map<Key, Entry>, k: Key)
    requires k in m
    ensures |NoncesOf(m - {k}, k.sender)| == |NoncesOf(m, k.sender)| - 1
    ensures |m - {k}| == |m| - 1
  {
    NoncesDrop(m, k);
    assert Key(k.sender, k.nonce) in m;
    assert k.nonce in NoncesOf(m, k.sender);
    assert (m - {k}).Keys == m.Keys - {k};
    assert |(m - {k}).Keys| == |m - {k}| && |m.Keys| == |m|;
  }

  /** One sender's queue after Enqueue: within its bound, with nothing new but the entry, and the total
      grows only below the global limit. */
  ghost predicate Enqueued(c: Config, queued: map<Key, Entry>, queued': map<Key, Entry>, e: Entry) {
    && SameElsewhere(queued, queued', e.item.key.sender)
    && (forall k {:trigger k in queued'} :: k in queued' ==>
          || (k == e.item.key && queued'[k] == e)
          || (k in queued && queued'[k] == queued[k]))
    && |NoncesOf(queued', e.item.key.sender)| <= c.maxQueuedPerSender
    && (|queued'| <= |queued| || |queued'| <= c.maxQueuedTotal)
  }

  lemma EnqueueShape(c: Config, s: State, e: Entry)
    requires c.Valid() && |NoncesOf(s.queued, e.item.key.sender)| <= c.maxQueuedPerSender
    ensures var q := Enqueue(c, s, e);
            q.state == s.(queued := q.state.queued) && Enqueued(c, s.queued, q.state.queued, e)
  {
    var k := e.item.key;
    var mine := NoncesOf(s.queued, k.sender);
    if k !in s.queued && |mine| >= c.maxQueuedPerSender {
      SwapShape(c, s.queued, e);
    } else {
      NoncesPut(s.queued, k, e);
      SizePut(s.queued, k, e);
    }
  }

  /** Displacing the highest nonce of a full queue. */
  lemma SwapShape(c: Config, queued: map<Key, Entry>, e: Entry)
    requires c.Valid() && e.item.key !in queued
    requires |NoncesOf(queued, e.item.key.sender)| == c.maxQueuedPerSender
    ensures NoncesOf(queued, e.item.key.sender) != {}
    ensures var high := Key(e.item.key.sender, MaxOf(NoncesOf(queued, e.item.key.sender)));
            high in queued && Enqueued(c, queued, (queued - {high})[e.item.key := e], e)
    ensures Enqueued(c, queued, queued, e)
  {
    var k := e.item.key;
    var mine := NoncesOf(queued, k.sender);
    assert mine != {};
    var high := Key(k.sender, MaxOf(mine));
    var less := queued - {high};
    NoncesDrop(queued, high);
    SizeDrop(queued, high);
    NoncesPut(less, k, e);
    SizePut(less, k, e);
    SameElsewhereTransitive(queued, less, less[k := e], k.sender);
  }

  /** An entry may be queued when it lies beyond its sender's run. */
  ghost predicate Queueable(s: State, k: Key) {
    && k.sender in s.infos && s.infos[k.sender].seqNo <= k.nonce
    && k !in s.active
    && (forall j {:trigger j in s.active} :: j in s.active && j.sender == k.sender ==> j.nonce < k.nonce)
  }

  /** The pool invariant survives replacing one sender's queue by a bounded set of queueable entries. */
  lemma QueueChange(c: Config, s: State, queued: map<Key, Entry>, sender: string)
    requires Inv(c, s)
    requires SameElsewhere(s.queued, queued, sender)
    requires forall k {:trigger k in queued} :: k in queued && k.sender == sender ==>
              queued[k].item.key == k && Queueable(s, k)
    requires |NoncesOf(queued, sender)| <= c.maxQueuedPerSender
    requires |queued| <= c.maxQueuedTotal + c.maxQueuedPerSender
    ensures Inv(c, s.(queued := queued))
  {
    forall other ensures |NoncesOf(queued, other)| <= c.maxQueuedPerSender {
      if other != sender { NoncesElsewhere(s.queued, queued, sender, other); }
    }
    var t := s.(queued := queued);
    assert Keyed(t) by {
      forall k | k in queued ensures queued[k].item.key == k && k.sender in s.infos && k !in s.active {
        assert k.sender != sender ==> k in s.queued;
      }
    }
    assert QueueBeyond(t) by {
      forall k | k in queued ensures s.infos[k.sender].seqNo <= k.nonce {
        assert k.sender != sender ==> k in s.queued;
      }
      forall q, k | q in queued && k in s.active && k.sender == q.sender ensures k.nonce < q.nonce {
        assert q.sender != sender ==> q in s.queued;
      }
    }
    assert Contiguous(t) && Stamped(c, t);
  }

  lemma EnqueueInv(c: Config, s: State, e: Entry)
    requires Inv(c, s) && Queueable(s, e.item.key)
    ensures Inv(c, Enqueue(c, s, e).state)
  {
    EnqueueShape(c, s, e);
    var q := Enqueue(c, s, e).state;
    forall k | k in q.queued && k.sender == e.item.key.sender
      ensures q.queued[k].item.key == k && Queueable(s, k)
    {
    }
    QueueChange(c, s, q.queued, e.item.key.sender);
  }

  lemma {:induction false} EnqueueAllInv(c: Config, s: State, sender: string, es: seq<Entry>)
    requires Inv(c, s)
    requires forall i :: 0 <= i < |es| ==> es[i].item.key.sender == sender && Queueable(s, es[i].item.key)
    ensures var o := EnqueueAll(c, s, es);
            && Inv(c, o.state)
            && o.state == s.(queued := o.state.queued)
            && SameElsewhere(s.queued, o.state.queued, sender)
            && (|o.state.queued| <= |s.queued| || |o.state.queued| <= c.maxQueuedTotal)
    decreases |es|
  {
    if es != [] {
      var e := AsQueued(es[|es| - 1]);
      EnqueueAllInv(c, s, sender, es[..|es| - 1]);
      var mid := EnqueueAll(c, s, es[..|es| - 1]).state;
      assert Queueable(mid, e.item.key);
      EnqueueShape(c, mid, e);
      EnqueueInv(c, mid, e);
      SameElsewhereTransitive(s.queued, mid.queued, Enqueue(c, mid, e).state.queued, sender);
    }
  }

  lemma SameElsewhereTransitive(a: map<Key, Entry>, b: map<Key, Entry>, c: map<Key, Entry>, sender: string)
    requires SameElsewhere(a, b, sender) && SameElsewhere(b, c, sender)
    ensures SameElsewhere(a, c, sender)
  {
  }
}
