/** What only removes or demotes keeps the pool invariant: stale removal, demotion, and the three removal reasons. */
module MempoolPreservation {
  import opened Common
  import opened MempoolTypes
  import opened MempoolState
  import opened MempoolInvariant

  // ---- shrinking ------------------------------------------------------------------------------

  lemma SubsetSize<T>(a: set<T>, b: set<T>)
    requires a <= b
    ensures |a| <= |b|
  {
    assert b == a + (b - a);
  }

  ghost predicate Submap(m: map<Key, Entry>, n: map<Key, Entry>) {
    forall k {:trigger k in m} :: k in m ==> k in n && m[k] == n[k]
  }

  lemma SubmapSize(m: map<Key, Entry>, n: map<Key, Entry>)
    requires Submap(m, n)
    ensures |m| <= |n|
    ensures forall sender :: |NoncesOf(m, sender)| <= |NoncesOf(n, sender)|
  {
    SubsetSize(m.Keys, n.Keys);
    assert |m.Keys| == |m| && |n.Keys| == |n|;
    forall sender ensures |NoncesOf(m, sender)| <= |NoncesOf(n, sender)| {
      SubsetSize(NoncesOf(m, sender), NoncesOf(n, sender));
    }
  }

  /** Dropping entries keeps everything except contiguity. */
  lemma Shrink(c: Config, s: State, t: State)
    requires Inv(c, s)
    requires Submap(t.active, s.active) && Submap(t.queued, s.queued) && t.order == s.order
    requires forall k {:trigger k in t.active} :: k in t.active ==> k.sender in t.infos
    requires forall k {:trigger k in t.queued} ::
              k in t.queued ==> k.sender in t.infos && t.infos[k.sender].seqNo <= k.nonce
    requires Keyed(t) ==> Contiguous(t)
    ensures Inv(c, t)
  {
    SubmapSize(t.active, s.active);
    SubmapSize(t.queued, s.queued);
    assert Keyed(t);
    assert QueueBeyond(t);
    assert RanksFall(t.active);
    assert Stamped(c, t);
    forall sender ensures |NoncesOf(t.queued, sender)| <= c.maxQueuedPerSender {
      assert |NoncesOf(s.queued, sender)| <= c.maxQueuedPerSender;
    }
  }

  lemma CutFromInv(c: Config, s: State, sender: string, n: nat)
    requires Inv(c, s)
    ensures Inv(c, s.(active := CutFrom(s.active, sender, n)))
  {
    Shrink(c, s, s.(active := CutFrom(s.active, sender, n)));
  }

  lemma DropQueuedInv(c: Config, s: State, ks: set<Key>)
    requires Inv(c, s)
    ensures Inv(c, s.(queued := s.queued - ks))
  {
    Shrink(c, s, s.(queued := s.queued - ks));
  }

  /** Advancing the on-chain sequence and dropping what became stale. */
  lemma StaleInv(c: Config, s: State, sender: string, seqNo: nat)
    requires Inv(c, s) && sender in s.infos
    ensures var t := RemoveStale(SetSeq(s, sender, seqNo), sender, seqNo).state;
            Inv(c, t) && sender in t.infos && t.infos[sender].seqNo >= s.infos[sender].seqNo
  {
    Shrink(c, s, RemoveStale(SetSeq(s, sender, seqNo), sender, seqNo).state);
  }

  lemma CleanupInv(c: Config, s: State, sender: string)
    requires Inv(c, s)
    ensures Inv(c, Cleanup(s, sender))
  {
    if IsEmpty(s, sender) {
      forall k | k in s.active || k in s.queued ensures k.sender != sender {
        assert Key(k.sender, k.nonce) == k;
      }
      Shrink(c, s, Cleanup(s, sender));
    }
  }

  // ---- demotion -------------------------------------------------------------------------------

  /** Enqueueing changes nothing but the queue. */
  lemma {:induction false} EnqueueAllTouchesQueue(c: Config, s: State, es: seq<Entry>)
    ensures var t := EnqueueAll(c, s, es).state;
            t == s.(queued := t.queued)
    decreases |es|
  {
    if es != [] {
      EnqueueAllTouchesQueue(c, s, es[..|es| - 1]);
      var mid := EnqueueAll(c, s, es[..|es| - 1]).state;
      hide NoncesOf, AsQueued;
      var q := Enqueue(c, mid, AsQueued(es[|es| - 1])).state;
      assert q == mid.(queued := q.queued);
    }
  }

  /** `es` holds entries of one sender, all from `m` and with nonces in [lo, hi), by strictly increasing nonce. */
  ghost predicate Ascending(m: map<Key, Entry>, sender: string, lo: nat, hi: nat, es: seq<Entry>) {
    && (forall i :: 0 <= i < |es| ==>
          es[i].item.key.sender == sender && lo <= es[i].item.key.nonce < hi &&
          es[i].item.key in m && m[es[i].item.key] == es[i])
    && (forall i, j :: 0 <= i < j < |es| ==> es[i].item.key.nonce < es[j].item.key.nonce)
  }

  lemma RunStep(m: map<Key, Entry>, sender: string, lo: nat, hi: nat)
    requires lo < hi
    ensures Run(m, sender, lo, hi) ==
              Run(m, sender, lo, hi - 1) + (if Key(sender, hi - 1) in m then [m[Key(sender, hi - 1)]] else [])
  {
  }

  lemma {:induction false} RunAscends(m: map<Key, Entry>, sender: string, lo: nat, hi: nat)
    requires WellKeyed(m)
    ensures Ascending(m, sender, lo, hi, Run(m, sender, lo, hi))
    decreases hi
  {
    if lo < hi {
      RunStep(m, sender, lo, hi);
      RunAscends(m, sender, lo, hi - 1);
      hide Run;
      AscendingSnoc(m, sender, lo, hi, Run(m, sender, lo, hi - 1));
    }
  }

  lemma AscendingSnoc(m: map<Key, Entry>, sender: string, lo: nat, hi: nat, es: seq<Entry>)
    requires WellKeyed(m) && lo < hi && Ascending(m, sender, lo, hi - 1, es)
    ensures Ascending(m, sender, lo, hi, es)
    ensures Key(sender, hi - 1) in m ==> Ascending(m, sender, lo, hi, es + [m[Key(sender, hi - 1)]])
  {
  }

  lemma {:induction false} RunHolds(m: map<Key, Entry>, sender: string, lo: nat, hi: nat, n: nat)
    requires lo <= n < hi && Key(sender, n) in m
    ensures m[Key(sender, n)] in Run(m, sender, lo, hi)
    decreases hi
  {
    RunStep(m, sender, lo, hi);
    hide Run;
    if n < hi - 1 {
      RunHolds(m, sender, lo, hi - 1, n);
    }
  }

  /** `Run` lists exactly the sender's entries in the range. */
  lemma RunLists(m: map<Key, Entry>, sender: string, lo: nat, hi: nat)
    requires WellKeyed(m)
    ensures Ascending(m, sender, lo, hi, Run(m, sender, lo, hi))
    ensures forall n: nat {:trigger Key(sender, n) in m} :: lo <= n < hi && Key(sender, n) in m ==>
              m[Key(sender, n)] in Run(m, sender, lo, hi)
  {
    hide Run, Ascending;
    RunAscends(m, sender, lo, hi);
    forall n: nat {:trigger Key(sender, n) in m} | lo <= n < hi && Key(sender, n) in m
      ensures m[Key(sender, n)] in Run(m, sender, lo, hi)
    {
      RunHolds(m, sender, lo, hi, n);
    }
  }

  ghost predicate AllQueueable(s: State, sender: string, es: seq<Entry>) {
    forall i :: 0 <= i < |es| ==> es[i].item.key.sender == sender && Queueable(s, es[i].item.key)
  }

  /** An active entry at or past the cut may be queued once the run is cut. */
  lemma CutMakesQueueable(c: Config, s: State, k: Key, n: nat)
    requires Inv(c, s) && k in s.active && n <= k.nonce
    ensures Queueable(s.(active := CutFrom(s.active, k.sender, n)), k)
  {
  }

  lemma RunQueueable(c: Config, s: State, m: map<Key, Entry>, sender: string, cut: nat, lo: nat, hi: nat)
    requires Inv(c, s) && Submap(m, s.active) && cut <= lo
    ensures AllQueueable(s.(active := CutFrom(s.active, sender, cut)), sender, Run(m, sender, lo, hi))
  {
    assert WellKeyed(m);
    hide Inv, Run, CutFrom, Queueable;
    RunLists(m, sender, lo, hi);
    var es := Run(m, sender, lo, hi);
    forall i | 0 <= i < |es|
      ensures es[i].item.key.sender == sender
      ensures Queueable(s.(active := CutFrom(s.active, sender, cut)), es[i].item.key)
    {
      CutMakesQueueable(c, s, es[i].item.key, cut);
    }
  }

  /** Cutting a run and queueing entries from past the cut. */
  lemma RequeueRunInv(c: Config, s: State, m: map<Key, Entry>, sender: string, cut: nat, lo: nat, hi: nat)
    requires Inv(c, s) && sender in s.infos && Submap(m, s.active) && cut <= lo
    ensures var o := EnqueueAll(c, s.(active := CutFrom(s.active, sender, cut)), Run(m, sender, lo, hi));
            Inv(c, o.state) && o.state.infos == s.infos
  {
    hide Inv, Run, CutFrom, Queueable, EnqueueAll, Submap;
    CutFromInv(c, s, sender, cut);
    RunQueueable(c, s, m, sender, cut, lo, hi);
    EnqueueAllInv(c, s.(active := CutFrom(s.active, sender, cut)), sender, Run(m, sender, lo, hi));
  }

  lemma DemoteInv(c: Config, s: State, sender: string, start: nat)
    requires Inv(c, s) && sender in s.infos
    ensures var o := Demote(c, s, sender, start);
            Inv(c, o.state) && o.state.infos == s.infos
  {
    hide Inv, Run, CutFrom, EnqueueAll;
    var a := NoncesOf(s.active, sender);
    if a != {} && start <= MaxOf(a) {
      RequeueRunInv(c, s, s.active, sender, start, start, MaxOf(a) + 1);
    }
  }

  lemma RejectActiveInv(c: Config, s: State, k: Key)
    requires Inv(c, s) && k in s.active && k.sender in s.infos
    ensures var o := Demote(c, s.(active := s.active - {k}), k.sender, k.nonce + 1);
            Inv(c, o.state) && o.state.infos == s.infos
  {
    hide Inv, EnqueueAll, Run, CutFrom;
    var a := NoncesOf(s.active - {k}, k.sender);
    CutFromInv(c, s, k.sender, k.nonce);
    if a == {} || k.nonce + 1 > MaxOf(a) {
      forall n: nat | Key(k.sender, n) in s.active ensures n <= k.nonce {
        if n != k.nonce { assert Key(k.sender, n) in s.active - {k}; }
      }
      CutAtTail(s.active, k);
    } else {
      CutPast(s.active, k);
      RequeueRunInv(c, s, s.active - {k}, k.sender, k.nonce, k.nonce + 1, MaxOf(a) + 1);
    }
  }

  lemma CutPast(active: map<Key, Entry>, k: Key)
    ensures CutFrom(active - {k}, k.sender, k.nonce + 1) == CutFrom(active, k.sender, k.nonce)
  {
    forall j | j in active && j.sender == k.sender && j.nonce == k.nonce ensures j == k {
    }
  }

  lemma CutAtTail(active: map<Key, Entry>, k: Key)
    requires k in active
    requires forall n: nat {:trigger Key(k.sender, n) in active} :: Key(k.sender, n) in active ==> n <= k.nonce
    ensures active - {k} == CutFrom(active, k.sender, k.nonce)
  {
    forall j | j in active && j != k ensures !(j.sender == k.sender && j.nonce >= k.nonce) {
      assert Key(j.sender, j.nonce) in active;
    }
  }

  /** Removing one nonce and demoting what follows it leaves a gap-free run again. */
  lemma RejectInv(c: Config, s: State, k: Key)
    requires Inv(c, s) && k.sender in s.infos
    ensures var o := RemoveCore(c, s, k, AnteRejectedInPrepare);
            Inv(c, o.state) && o.state.infos == s.infos
  {
    hide Inv, Demote;
    if k in s.active {
      RejectActiveInv(c, s, k);
    } else {
      if k in s.queued { DropQueuedInv(c, s, {k}); }
      DemoteInv(c, RemoveNonce(s, k).state, k.sender, k.nonce + 1);
    }
  }

  /** A commit removes the nonce itself among everything below the new sequence. */
  lemma CommitDropsStale(s: State, k: Key)
    ensures RemoveStale(SetSeq(RemoveNonce(s, k).state, k.sender, k.nonce + 1), k.sender, k.nonce + 1).state
         == RemoveStale(SetSeq(s, k.sender, k.nonce + 1), k.sender, k.nonce + 1).state
  {
    var core := RemoveNonce(s, k).state;
    assert CutBelow(core.active, k.sender, k.nonce + 1) == CutBelow(s.active, k.sender, k.nonce + 1);
    assert CutBelow(core.queued, k.sender, k.nonce + 1) == CutBelow(s.queued, k.sender, k.nonce + 1);
  }

  lemma CommitInv(c: Config, s: State, k: Key)
    requires Inv(c, s)
    ensures Inv(c, RemoveByReason(c, s, k, CommittedInBlock, Some(k.nonce + 1)).state)
  {
    hide Inv, RemoveStale, SetSeq, IsEmpty, RemoveNonce;
    if k.sender in s.infos {
      CommitDropsStale(s, k);
      StaleInv(c, s, k.sender, k.nonce + 1);
      CleanupInv(c, RemoveStale(SetSeq(s, k.sender, k.nonce + 1), k.sender, k.nonce + 1).state, k.sender);
    }
  }

  lemma RemoveByReasonInv(c: Config, s: State, k: Key, reason: Reason)
    requires Inv(c, s)
    ensures var onChain := if reason == CommittedInBlock then Some(k.nonce + 1) else None;
            Inv(c, RemoveByReason(c, s, k, reason, onChain).state)
  {
    hide Inv, Demote, IsEmpty, RemoveNonce;
    if reason == CommittedInBlock {
      CommitInv(c, s, k);
    } else if k.sender in s.infos {
      if reason == CapacityEvicted { DemoteInv(c, s, k.sender, k.nonce); } else { RejectInv(c, s, k); }
      CleanupInv(c, RemoveCore(c, s, k, reason).state, k.sender);
    }
  }
}
