/** The per-sender record with its cached nonce bounds (abcipp/mempool_sender_state.go). */
module Senders {
  import opened Common
  import opened MempoolTypes
  import opened MempoolState
  import opened MempoolInvariant

  /** `lo` and `hi` are the true bounds of a set of nonces, and both zero when it is empty. */
  ghost predicate Bounds(ns: set<nat>, lo: nat, hi: nat) {
    if ns == {} then lo == 0 && hi == 0
    else lo in ns && hi in ns && forall n :: n in ns ==> lo <= n <= hi
  }

  lemma BoundsMax(ns: set<nat>, lo: nat, hi: nat)
    requires Bounds(ns, lo, hi) && ns != {}
    ensures hi == MaxOf(ns)
  {
  }

  /** `m` holds the entries that `all` has for one sender. */
  ghost predicate Projects(m: map<nat, Entry>, all: map<Key, Entry>, sender: string) {
    && m.Keys == NoncesOf(all, sender)
    && (forall n {:trigger n in m} :: n in m ==> m[n] == all[Key(sender, n)])
  }

  lemma ProjectsPut(m: map<nat, Entry>, all: map<Key, Entry>, k: Key, e: Entry)
    requires Projects(m, all, k.sender)
    ensures Projects(m[k.nonce := e], all[k := e], k.sender)
    ensures k !in all ==> m[k.nonce := e].Keys - {k.nonce} == m.Keys
    ensures k in all ==> m[k.nonce := e].Keys == m.Keys
  {
    NoncesPut(all, k, e);
    assert k == Key(k.sender, k.nonce);
    assert m[k.nonce := e].Keys == m.Keys + {k.nonce};
    assert k.nonce in m.Keys <==> Key(k.sender, k.nonce) in all;
  }

  lemma ProjectsDrop(m: map<nat, Entry>, all: map<Key, Entry>, k: Key)
    requires Projects(m, all, k.sender) && k in all
    ensures k.nonce in m && m[k.nonce] == all[k]
    ensures Projects(m - {k.nonce}, all - {k}, k.sender)
    ensures (m - {k.nonce}).Keys + {k.nonce} == m.Keys
  {
    NoncesDrop(all, k);
    assert k == Key(k.sender, k.nonce);
    assert k.nonce in m.Keys;
    assert (m - {k.nonce}).Keys == m.Keys - {k.nonce};
  }

  class SenderState {
    var onChainSeq: nat
    var gapSince: Option<int>
    var activeMin: nat
    var activeMax: nat
    var active: map<nat, Entry>
    var queuedMin: nat
    var queuedMax: nat
    var queued: map<nat, Entry>

    constructor ()
      ensures onChainSeq == 0 && gapSince == None && active == map[] && queued == map[]
      ensures activeMin == activeMax == queuedMin == queuedMax == 0
    {
      onChainSeq, gapSince, active, queued := 0, None, map[], map[];
      activeMin, activeMax, queuedMin, queuedMax := 0, 0, 0, 0;
    }

    /** The record shows what the pool state says about its sender, with exact cached bounds. */
    ghost predicate Shows(s: State, sender: string)
      reads this
    {
      && sender in s.infos
      && onChainSeq == s.infos[sender].seqNo && gapSince == s.infos[sender].gapSince
      && Projects(active, s.active, sender) && Projects(queued, s.queued, sender)
      && Bounds(active.Keys, activeMin, activeMax) && Bounds(queued.Keys, queuedMin, queuedMax)
    }

    predicate Empty()
      reads this
    {
      |active| == 0 && |queued| == 0
    }

    function NextExpectedNonce(): nat
      reads this
    {
      if |active| == 0 then onChainSeq else Max(onChainSeq, activeMax + 1)
    }

    lemma NextExpectedIsNext(s: State, sender: string)
      requires Shows(s, sender)
      ensures NextExpectedNonce() == Next(s, sender)
    {
      assert |active| == 0 <==> active.Keys == {};
      if active.Keys != {} { BoundsMax(active.Keys, activeMin, activeMax); }
    }

    method SetOnChainSeq(seqNo: nat)
      modifies this`onChainSeq
      ensures onChainSeq == Max(old(onChainSeq), seqNo)
    {
      onChainSeq := Max(onChainSeq, seqNo);
    }

    method ResetActiveRange()
      modifies this`activeMin, this`activeMax
      ensures activeMin == 0 && activeMax == 0
    {
      activeMin, activeMax := 0, 0;
    }

    /** Called after `nonce` entered the active map: the cached bounds are exact again. */
    method SetActiveRangeOnInsert(nonce: nat)
      requires nonce in active && Bounds(active.Keys - {nonce}, activeMin, activeMax)
      modifies this`activeMin, this`activeMax
      ensures Bounds(active.Keys, activeMin, activeMax)
    {
      if |active| == 1 {
        SingletonKeys(active, nonce);
        activeMin, activeMax := nonce, nonce;
        return;
      }
      assert active.Keys != {nonce} by { assert |active.Keys| == |active|; }
      assert forall n :: n in active && n != nonce ==> n in active.Keys - {nonce};
      activeMin := Min(activeMin, nonce);
      activeMax := Max(activeMax, nonce);
    }

    /** Called after `removed` left the active map: the cached bounds are exact again. */
    method SetActiveRangeOnRemove(removed: nat)
      requires removed !in active && Bounds(active.Keys + {removed}, activeMin, activeMax)
      modifies this`activeMin, this`activeMax
      ensures Bounds(active.Keys, activeMin, activeMax)
    {
      if |active| == 0 {
        assert active.Keys == {};
        ResetActiveRange();
        return;
      }
      assert active.Keys != {};
      assert forall m :: m in active.Keys + {removed} <==> m in active || m == removed;
      assert forall m :: m in active ==> activeMin <= m <= activeMax;
      if removed == activeMin {
        assert activeMax in active;
        var n := activeMin + 1;
        while true
          invariant n <= activeMax
          invariant activeMax in active
          invariant forall m :: m in active ==> n <= m <= activeMax
          decreases activeMax - n
        {
          if n in active {
            activeMin := n;
            break;
          }
          if n >= activeMax {
            activeMin := activeMax;
            break;
          }
          n := n + 1;
        }
        return;
      }
      if removed == activeMax {
        assert activeMin in active;
        var n := activeMax - 1;
        while true
          invariant activeMin <= n
          invariant activeMin in active
          invariant forall m :: m in active ==> activeMin <= m <= n
          decreases n
        {
          if n in active {
            activeMax := n;
            break;
          }
          if n <= activeMin {
            activeMax := activeMin;
            break;
          }
          n := n - 1;
        }
      }
    }

    method ResetQueuedRange()
      modifies this`queuedMin, this`queuedMax
      ensures queuedMin == 0 && queuedMax == 0
    {
      queuedMin, queuedMax := 0, 0;
    }

    method SetQueuedRangeOnInsert(nonce: nat)
      requires nonce in queued && Bounds(queued.Keys - {nonce}, queuedMin, queuedMax)
      modifies this`queuedMin, this`queuedMax
      ensures Bounds(queued.Keys, queuedMin, queuedMax)
    {
      if |queued| == 1 {
        SingletonKeys(queued, nonce);
        queuedMin, queuedMax := nonce, nonce;
        return;
      }
      assert queued.Keys != {nonce} by { assert |queued.Keys| == |queued|; }
      assert forall n :: n in queued && n != nonce ==> n in queued.Keys - {nonce};
      queuedMin := Min(queuedMin, nonce);
      queuedMax := Max(queuedMax, nonce);
    }

    method SetQueuedRangeOnRemove(removed: nat)
      requires removed !in queued && Bounds(queued.Keys + {removed}, queuedMin, queuedMax)
      modifies this`queuedMin, this`queuedMax
      ensures Bounds(queued.Keys, queuedMin, queuedMax)
    {
      if |queued| == 0 {
        assert queued.Keys == {};
        ResetQueuedRange();
        return;
      }
      assert queued.Keys != {};
      assert forall m :: m in queued.Keys + {removed} <==> m in queued || m == removed;
      assert forall m :: m in queued ==> queuedMin <= m <= queuedMax;
      if removed == queuedMin {
        assert queuedMax in queued;
        var n := queuedMin + 1;
        while true
          invariant n <= queuedMax
          invariant queuedMax in queued
          invariant forall m :: m in queued ==> n <= m <= queuedMax
          decreases queuedMax - n
        {
          if n in queued {
            queuedMin := n;
            break;
          }
          if n >= queuedMax {
            queuedMin := queuedMax;
            break;
          }
          n := n + 1;
        }
        return;
      }
      if removed == queuedMax {
        assert queuedMin in queued;
        var n := queuedMax - 1;
        while true
          invariant queuedMin <= n
          invariant queuedMin in queued
          invariant forall m :: m in queued ==> queuedMin <= m <= n
          decreases n
        {
          if n in queued {
            queuedMax := n;
            break;
          }
          if n <= queuedMin {
            queuedMax := queuedMin;
            break;
          }
          n := n - 1;
        }
      }
    }

    /** Adds an active entry at a free nonce. */
    method PutActive(entry: Entry, ghost s: State)
      requires Shows(s, entry.item.key.sender) && entry.item.key !in s.active
      modifies this
      ensures Shows(Activate(s, entry), entry.item.key.sender)
    {
      var nonce := entry.item.key.nonce;
      ProjectsPut(active, s.active, entry.item.key, entry);
      hide Projects, Bounds;
      active := active[nonce := entry];
      SetActiveRangeOnInsert(nonce);
    }

    /** Deletes an active nonce. */
    method DropActive(nonce: nat, ghost s: State, ghost sender: string)
      requires Shows(s, sender) && Key(sender, nonce) in s.active
      modifies this
      ensures Shows(s.(active := s.active - {Key(sender, nonce)}), sender)
    {
      ProjectsDrop(active, s.active, Key(sender, nonce));
      hide Projects, Bounds;
      active := active - {nonce};
      SetActiveRangeOnRemove(nonce);
    }

    /** Adds a queued entry at a free nonce. */
    method PutQueued(entry: Entry, ghost s: State)
      requires Shows(s, entry.item.key.sender) && entry.item.key !in s.queued
      modifies this
      ensures Shows(s.(queued := s.queued[entry.item.key := entry]), entry.item.key.sender)
    {
      var nonce := entry.item.key.nonce;
      ProjectsPut(queued, s.queued, entry.item.key, entry);
      hide Projects, Bounds;
      queued := queued[nonce := entry];
      SetQueuedRangeOnInsert(nonce);
    }

    /** Replaces the queued entry at an occupied nonce. */
    method ReplaceQueued(entry: Entry, ghost s: State)
      requires Shows(s, entry.item.key.sender) && entry.item.key in s.queued
      modifies this
      ensures Shows(s.(queued := s.queued[entry.item.key := entry]), entry.item.key.sender)
    {
      ProjectsPut(queued, s.queued, entry.item.key, entry);
      hide Projects, Bounds;
      queued := queued[entry.item.key.nonce := entry];
    }

    /** Deletes a queued nonce. */
    method DropQueued(nonce: nat, ghost s: State, ghost sender: string)
      requires Shows(s, sender) && Key(sender, nonce) in s.queued
      modifies this
      ensures Shows(s.(queued := s.queued - {Key(sender, nonce)}), sender)
    {
      ProjectsDrop(queued, s.queued, Key(sender, nonce));
      hide Projects, Bounds;
      queued := queued - {nonce};
      SetQueuedRangeOnRemove(nonce);
    }

    /** The scan of `insertQueuedLocked` for the highest queued nonce. */
    method HighestQueued() returns (high: nat)
      ensures queued.Keys == {} ==> high == 0
      ensures queued.Keys != {} ==> high == MaxOf(queued.Keys)
    {
      high := 0;
      var todo := queued.Keys;
      while todo != {}
        invariant todo <= queued.Keys
        invariant forall n :: n in queued.Keys - todo ==> n <= high
        invariant high in queued.Keys || high == 0
        decreases todo
      {
        var n :| n in todo;
        if n > high { high := n; }
        assert forall m :: m in queued.Keys - (todo - {n}) ==> m in queued.Keys - todo || m == n;
        todo := todo - {n};
      }
      assert queued.Keys - todo == queued.Keys;
      if queued.Keys != {} {
        var m := MaxOf(queued.Keys);
        assert m in queued.Keys - todo;
      }
    }

    /** The clamped rank of an entry about to enter the active set. */
    function ComputeClampedRank(tier: int, priority: int, order: int, nonce: nat): Rank
      reads this
    {
      ClampedRank(active, activeMax, Rank(Score(tier, priority), order), nonce)
    }

    lemma ComputeClampedIsClamp(s: State, sender: string, tier: int, priority: int, order: int, nonce: nat)
      requires Shows(s, sender)
      ensures ComputeClampedRank(tier, priority, order, nonce)
           == Clamp(s.active, Key(sender, nonce), Rank(Score(tier, priority), order))
    {
      ClampedRankIsClamp(active, activeMin, activeMax, s.active, sender, Rank(Score(tier, priority), order), nonce);
    }
  }

  /** `computeClampedRankLocked` on a sender's active map and its cached maximum. */
  function ClampedRank(active: map<nat, Entry>, activeMax: nat, raw: Rank, nonce: nat): Rank {
    if nonce > 0 && nonce - 1 in active then
      if Outranks(raw, active[nonce - 1].clamped) then active[nonce - 1].clamped else raw
    else if |active| > 0 && nonce > activeMax && activeMax in active && Outranks(raw, active[activeMax].clamped) then
      active[activeMax].clamped
    else raw
  }

  lemma ClampedRankIsClamp(active: map<nat, Entry>, lo: nat, hi: nat, all: map<Key, Entry>, sender: string,
                           raw: Rank, nonce: nat)
    requires Projects(active, all, sender) && Bounds(active.Keys, lo, hi)
    ensures ClampedRank(active, hi, raw, nonce) == Clamp(all, Key(sender, nonce), raw)
  {
    hide Outranks;
    if nonce > 0 && nonce - 1 in active {
      assert Key(sender, nonce - 1) in all;
    } else {
      assert nonce > 0 ==> Key(sender, nonce - 1) !in all;
      if active.Keys == {} {
        assert |active| == 0;
        assert NoncesOf(all, sender) == {};
      } else {
        assert hi in active && |active| > 0;
        BoundsMax(active.Keys, lo, hi);
        assert Key(sender, hi) in all;
      }
    }
  }

  lemma SingletonKeys(m: map<nat, Entry>, n: nat)
    requires n in m && |m| == 1
    ensures m.Keys == {n}
  {
    assert |m.Keys| == 1;
    assert |m.Keys - {n}| == 0;
  }
}
