/** Admission: a capacity eviction, a new entry at the cursor and a same-nonce replacement, and what each does to the
    pool invariant. */
module MempoolAdmission {
  import opened Common
  import opened MempoolTypes
  import opened MempoolState
  import opened MempoolInvariant
  import opened MempoolPreservation

  // ---- eviction -------------------------------------------------------------------------------

  ghost predicate SameOf(m: map<Key, Entry>, m': map<Key, Entry>, sender: string) {
    forall k: Key {:trigger k in m} {:trigger k in m'} :: k.sender == sender ==>
      (k in m <==> k in m') && (k in m ==> m[k] == m'[k])
  }

  /** A registered sender's record, run and queue are the same in both states. */
  ghost predicate SameSender(s: State, t: State, sender: string) {
    && sender in s.infos && sender in t.infos && s.infos[sender] == t.infos[sender]
    && SameOf(s.active, t.active, sender) && SameOf(s.queued, t.queued, sender)
  }

  lemma SameNonces(m: map<Key, Entry>, m': map<Key, Entry>, sender: string)
    requires SameOf(m, m', sender)
    ensures NoncesOf(m, sender) == NoncesOf(m', sender)
  {
    forall n: nat ensures n in NoncesOf(m, sender) <==> n in NoncesOf(m', sender) {
      assert Key(sender, n) in m <==> Key(sender, n) in m';
    }
  }

  lemma SameNext(s: State, t: State, sender: string)
    requires SameSender(s, t, sender)
    ensures Next(s, sender) == Next(t, sender)
  {
    SameNonces(s.active, t.active, sender);
  }

  lemma ElsewhereSame(m: map<Key, Entry>, m': map<Key, Entry>, sender: string, other: string)
    requires SameElsewhere(m, m', sender) && other != sender
    ensures SameOf(m, m', other)
  {
  }

  lemma TailIsMax(active: map<Key, Entry>, k: Key)
    requires k in active
    requires forall n: nat {:trigger Key(k.sender, n) in active} :: Key(k.sender, n) in active ==> n <= k.nonce
    ensures NoncesOf(active, k.sender) != {} && MaxOf(NoncesOf(active, k.sender)) == k.nonce
  {
    assert Key(k.sender, k.nonce) in active;
    assert k.nonce in NoncesOf(active, k.sender);
    assert Key(k.sender, MaxOf(NoncesOf(active, k.sender))) in active;
  }

  /** The last entry of the index is the tail of its sender's run: cutting there drops just that entry. */
  lemma CutLast(c: Config, s: State, v: Entry)
    requires Inv(c, s) && IsLast(s.active, v)
    ensures v.item.key in s.active && s.active[v.item.key] == v && v.item.key.sender in s.infos
    ensures s.active - {v.item.key} == CutFrom(s.active, v.item.key.sender, v.item.key.nonce)
    ensures NoncesOf(s.active, v.item.key.sender) != {}
    ensures MaxOf(NoncesOf(s.active, v.item.key.sender)) == v.item.key.nonce
  {
    var k := v.item.key;
    forall n: nat | Key(k.sender, n) in s.active ensures n <= k.nonce { LastIsTail(s, v, n); }
    hide Inv, CutFrom;
    TailIsMax(s.active, k);
    CutAtTail(s.active, k);
  }

  lemma EvictDemotesOne(c: Config, s: State, v: Entry)
    requires Inv(c, s) && IsLast(s.active, v)
    ensures Demote(c, s, v.item.key.sender, v.item.key.nonce)
         == EnqueueAll(c, s.(active := s.active - {v.item.key}), [v])
  {
    hide Inv, EnqueueAll, IsLast, CutFrom;
    var k := v.item.key;
    CutLast(c, s, v);
    assert Run(s.active, k.sender, k.nonce, k.nonce) == [];
    assert Run(s.active, k.sender, k.nonce, k.nonce + 1) == [v];
  }

  lemma EvictQueues(c: Config, s: State, v: Entry)
    requires Inv(c, s) && IsLast(s.active, v)
    ensures var t := EnqueueAll(c, s.(active := s.active - {v.item.key}), [v]).state;
            && Inv(c, t)
            && t == s.(active := s.active - {v.item.key}, queued := t.queued)
            && SameElsewhere(s.queued, t.queued, v.item.key.sender)
            && (|t.queued| <= |s.queued| || |t.queued| <= c.maxQueuedTotal)
  {
    hide Inv, EnqueueAll, IsLast, CutFrom, Queueable, SameElsewhere;
    var k := v.item.key;
    CutLast(c, s, v);
    CutFromInv(c, s, k.sender, k.nonce);
    CutMakesQueueable(c, s, k, k.nonce);
    EnqueueAllInv(c, s.(active := s.active - {k}), k.sender, [v]);
  }

  /** All records but one are the same. */
  ghost predicate SameInfosElsewhere(s: State, t: State, sender: string) {
    forall other {:trigger other in t.infos} {:trigger other in s.infos} :: other != sender ==>
      (other in t.infos <==> other in s.infos) && (other in s.infos ==> t.infos[other] == s.infos[other])
  }

  /** Evicting the last entry of the index removes exactly that entry from the active set. */
  lemma EvictInv(c: Config, s: State, v: Entry)
    requires Inv(c, s) && IsLast(s.active, v)
    ensures var t := RemoveByReason(c, s, v.item.key, CapacityEvicted, None).state;
            && Inv(c, t)
            && t.active == s.active - {v.item.key} && t.order == s.order
            && (|t.queued| <= |s.queued| || |t.queued| <= c.maxQueuedTotal)
            && SameElsewhere(s.queued, t.queued, v.item.key.sender)
            && SameInfosElsewhere(s, t, v.item.key.sender)
  {
    hide Inv, EnqueueAll, Demote, IsLast, SameElsewhere, IsEmpty;
    var k := v.item.key;
    CutLast(c, s, v);
    EvictDemotesOne(c, s, v);
    EvictQueues(c, s, v);
    CleanupInv(c, EnqueueAll(c, s.(active := s.active - {k}), [v]).state, k.sender);
  }

  /** What making room for an entry at its sender's cursor does: a slot is free afterwards, at most the index's
      last entry left the active set, and the entry's own sender is untouched and stays registered. */
  ghost predicate RoomMade(c: Config, s: State, t: State, adm: Admission, sender: string) {
    && Inv(c, t) && t.order == s.order
    && (c.maxTx > 0 ==> |t.active| < c.maxTx)
    && t.active == (if adm.Evict? then s.active - {adm.victim.item.key} else s.active)
    && (|t.queued| <= |s.queued| || |t.queued| <= c.maxQueuedTotal)
    && SameSender(s, t, sender)
  }

  lemma EvictLeavesOthers(c: Config, s: State, v: Entry, sender: string)
    requires Inv(c, s) && IsLast(s.active, v)
    requires sender in s.infos && sender != v.item.key.sender
    requires c.maxTx > 0 ==> |s.active| <= c.maxTx
    ensures RoomMade(c, s, RemoveByReason(c, s, v.item.key, CapacityEvicted, None).state, Evict(v), sender)
  {
    hide Inv, RemoveByReason;
    var t := RemoveByReason(c, s, v.item.key, CapacityEvicted, None).state;
    EvictInv(c, s, v);
    SizeDrop(s.active, v.item.key);
    ElsewhereSame(s.queued, t.queued, v.item.key.sender, sender);
    assert SameOf(s.active, t.active, sender);
  }

  lemma MakeRoomInv(c: Config, s: State, block: Option<BlockLimits>, e: Entry, raw: Rank)
    requires Inv(c, s)
    requires e.item.key.sender in s.infos && e.item.key.nonce == Next(s, e.item.key.sender)
    requires e.clamped == Clamp(s.active, e.item.key, raw)
    requires !Admit(c, s, block, e, false).Refused?
    ensures var adm := Admit(c, s, block, e, false);
            RoomMade(c, s, MakeRoom(c, s, adm).state, adm, e.item.key.sender)
  {
    var adm := Admit(c, s, block, e, false);
    assert c.maxTx > 0 ==> |s.active| <= c.maxTx;
    if adm.Evict? {
      NeverEvictsOwn(c, s, block, e, raw);
      hide Inv, Clamp, IsLast, Admit, RemoveByReason, RoomMade;
      EvictLeavesOthers(c, s, adm.victim, e.item.key.sender);
    }
  }

  // ---- entering the active set ----------------------------------------------------------------

  lemma ClampOrder(c: Config, s: State, key: Key, raw: Rank)
    requires Inv(c, s) && raw.order == s.order
    ensures Clamp(s.active, key, raw).order <= s.order
    ensures Clamp(s.active, key, raw).score <= raw.score
  {
    var a := NoncesOf(s.active, key.sender);
    assert a != {} ==> Key(key.sender, MaxOf(a)) in s.active;
    hide NoncesOf, Outranks;
    assert forall k {:trigger k in s.active} :: k in s.active ==> s.active[k].clamped.order <= s.order;
    hide Inv;
    if key.nonce > 0 && Key(key.sender, key.nonce - 1) in s.active {
      LowerNeverOutranks(raw, s.active[Key(key.sender, key.nonce - 1)].clamped);
    } else if a != {} && key.nonce > MaxOf(a) {
      LowerNeverOutranks(raw, s.active[Key(key.sender, MaxOf(a))].clamped);
    }
  }

  /** A stamped entry is consistent with the state it was stamped in. */
  ghost predicate EntryOk(c: Config, s: State, e: Entry) {
    && 0 <= e.tier < |c.tiers| && e.clamped.order <= e.order <= s.order
    && e.clamped.score <= Score(e.tier, e.item.priority)
  }

  lemma StampOk(c: Config, s: State, ctx: Ctx, item: Item)
    requires Inv(c, s)
    ensures EntryOk(c, s, Stamp(c, s, ctx, item))
  {
    var e := Stamp(c, s, ctx, item);
    assert c.Valid();
    hide Inv, Clamp;
    ClampOrder(c, s, item.key, Rank(Score(e.tier, item.priority), s.order));
  }

  lemma TickInv(c: Config, s: State)
    requires Inv(c, s)
    ensures Inv(c, Tick(s))
  {
    assert Keyed(Tick(s)) && Contiguous(Tick(s)) && QueueBeyond(Tick(s)) && Stamped(c, Tick(s)) && Bounded(c, Tick(s));
  }

  ghost predicate AtNext(s: State, key: Key) {
    key.sender in s.infos && key.nonce == Next(s, key.sender)
  }

  ghost predicate RankedLast(active: map<Key, Entry>, e: Entry) {
    forall k {:trigger k in active} :: k in active && k.sender == e.item.key.sender ==>
      k.nonce < e.item.key.nonce && !Outranks(e.clamped, active[k].clamped)
  }

  /** Appending at the cursor extends the run by one. */
  lemma ActivateInv(c: Config, s: State, e: Entry)
    requires Inv(c, s) && (c.maxTx > 0 ==> |s.active| < c.maxTx)
    requires AtNext(s, e.item.key) && e.item.key !in s.queued
    requires EntryOk(c, s, e) && RankedLast(s.active, e)
    ensures Inv(c, Activate(s, e))
    ensures Next(Activate(s, e), e.item.key.sender) == e.item.key.nonce + 1
  {
    hide Inv, Keyed, Contiguous, QueueBeyond, RanksFall, Stamped, Bounded, EntryOk, RankedLast, AtNext, Next;
    InvParts(c, s);
    CursorIsFree(s, e.item.key);
    ActivateKeyed(s, e);
    RunExtends(s, e);
    QueueStaysBeyond(s, e);
    RanksStillFall(s.active, e);
    ActivateStamped(c, s, e);
    ActivateBounded(c, s, e);
    NextAfter(s, e);
    InvIntro(c, Activate(s, e));
  }

  lemma InvParts(c: Config, s: State)
    requires Inv(c, s)
    ensures c.Valid() && Keyed(s) && Contiguous(s) && QueueBeyond(s)
    ensures RanksFall(s.active) && Stamped(c, s) && Bounded(c, s)
  {
    hide Keyed, Contiguous, QueueBeyond, RanksFall, Stamped, Bounded;
  }

  lemma InvIntro(c: Config, s: State)
    requires c.Valid() && Keyed(s) && Contiguous(s) && QueueBeyond(s)
    requires RanksFall(s.active) && Stamped(c, s) && Bounded(c, s)
    ensures Inv(c, s)
  {
    hide Keyed, Contiguous, QueueBeyond, RanksFall, Stamped, Bounded;
  }

  lemma CursorIsFree(s: State, k: Key)
    requires Keyed(s) && Contiguous(s) && AtNext(s, k)
    ensures k.sender in s.infos && k !in s.active
  {
    NextIsRunEnd(s, k.sender);
    assert k == Key(k.sender, k.nonce);
    hide Keyed, Contiguous, Next;
  }

  lemma ActivateKeyed(s: State, e: Entry)
    requires Keyed(s) && e.item.key.sender in s.infos && e.item.key !in s.queued
    ensures Keyed(Activate(s, e))
  {
  }

  lemma ActivateStamped(c: Config, s: State, e: Entry)
    requires Stamped(c, s) && EntryOk(c, s, e)
    ensures Stamped(c, Activate(s, e))
  {
  }

  lemma ActivateBounded(c: Config, s: State, e: Entry)
    requires Bounded(c, s) && e.item.key !in s.active && (c.maxTx > 0 ==> |s.active| < c.maxTx)
    ensures Bounded(c, Activate(s, e))
  {
    SizePut(s.active, e.item.key, e);
    hide NoncesOf;
  }

  lemma RanksStillFall(active: map<Key, Entry>, e: Entry)
    requires RanksFall(active) && RankedLast(active, e)
    ensures RanksFall(active[e.item.key := e])
  {
  }

  lemma QueueStaysBeyond(s: State, e: Entry)
    requires Keyed(s) && Contiguous(s) && QueueBeyond(s) && AtNext(s, e.item.key) && e.item.key !in s.queued
    requires Keyed(Activate(s, e))
    ensures QueueBeyond(Activate(s, e))
  {
    var k := e.item.key;
    forall q | q in s.queued && q.sender == k.sender ensures k.nonce < q.nonce {
      QueuedAtLeastNext(s, q);
      assert Key(q.sender, q.nonce) in s.queued;
    }
    hide Next, Contiguous;
  }

  lemma NextAfter(s: State, e: Entry)
    requires Keyed(s) && Contiguous(s) && AtNext(s, e.item.key)
    requires Keyed(Activate(s, e)) && Contiguous(Activate(s, e))
    ensures Next(Activate(s, e), e.item.key.sender) == e.item.key.nonce + 1
  {
    var k := e.item.key;
    var t := Activate(s, e);
    NextIsRunEnd(s, k.sender);
    hide Contiguous, Next;
    forall m: nat ensures Key(k.sender, m) in t.active <==> t.infos[k.sender].seqNo <= m < k.nonce + 1 {
      assert Key(k.sender, m) in s.active <==> s.infos[k.sender].seqNo <= m < k.nonce;
    }
    NextUnique(t, k.sender, k.nonce + 1);
  }

  lemma RunExtends(s: State, e: Entry)
    requires Keyed(s) && Contiguous(s) && AtNext(s, e.item.key)
    requires Keyed(Activate(s, e))
    ensures Contiguous(Activate(s, e))
  {
    var k := e.item.key;
    var t := Activate(s, e);
    NextIsRunEnd(s, k.sender);
    forall j, n: nat | j in t.active && t.infos[j.sender].seqNo <= n <= j.nonce ensures Key(j.sender, n) in t.active {
      if j == k {
        if n < k.nonce { assert Key(k.sender, n) in s.active; }
      } else {
        assert j in s.active;
        assert Key(j.sender, n) in s.active;
      }
    }
  }

  // ---- replacement ----------------------------------------------------------------------------

  /** A replacement outranks the active entry that follows it, if there is one. */
  predicate KeepsRank(active: map<Key, Entry>, key: Key, score: int) {
    Key(key.sender, key.nonce + 1) in active ==> score > active[Key(key.sender, key.nonce + 1)].clamped.score
  }

  /** Every rank given out so far is older than the current order. */
  ghost predicate Fresh(s: State) {
    forall k {:trigger k in s.active} :: k in s.active ==> s.active[k].clamped.order < s.order
  }

  lemma TickFresh(c: Config, s: State)
    requires Inv(c, s)
    ensures Fresh(Tick(s))
  {
  }

  /** A replacement inside the run is clamped to its direct predecessor, or not at all at the head. */
  lemma ClampInRun(s: State, key: Key, raw: Rank)
    requires Keyed(s) && key in s.active
    ensures Clamp(s.active, key, raw) ==
            if key.nonce > 0 && Key(key.sender, key.nonce - 1) in s.active
            then Lower(raw, s.active[Key(key.sender, key.nonce - 1)].clamped) else raw
  {
    assert Key(key.sender, key.nonce) in s.active;
  }

  /** The neighbours of a slot in the run: earlier entries rank no lower than the predecessor, later ones no higher
      than the successor. */
  lemma Neighbours(s: State, k: Key, j: Key)
    requires Keyed(s) && Contiguous(s) && RanksFall(s.active)
    requires k in s.active && j in s.active && j.sender == k.sender && j != k
    ensures j.nonce < k.nonce ==>
              Key(k.sender, k.nonce - 1) in s.active &&
              !Outranks(s.active[Key(k.sender, k.nonce - 1)].clamped, s.active[j].clamped)
    ensures j.nonce > k.nonce ==>
              Key(k.sender, k.nonce + 1) in s.active &&
              !Outranks(s.active[j].clamped, s.active[Key(k.sender, k.nonce + 1)].clamped)
  {
    if j.nonce < k.nonce {
      var prev := Key(k.sender, k.nonce - 1);
      assert prev in s.active;
      assert j == prev || j.nonce < prev.nonce;
    } else {
      assert j.nonce > k.nonce;
      var next := Key(j.sender, k.nonce + 1);
      assert next in s.active;
      assert j == next || next.nonce < j.nonce;
    }
  }

  lemma RankChain(a: Rank, b: Rank, c: Rank)
    requires !Outranks(a, b) && !Outranks(b, c)
    ensures !Outranks(a, c)
  {
  }

  lemma ReplacedRank(s: State, e: Entry, score: int, j: Key)
    requires Keyed(s) && Contiguous(s) && RanksFall(s.active) && Fresh(s)
    requires e.item.key in s.active && e.clamped == Clamp(s.active, e.item.key, Rank(score, s.order))
    requires KeepsRank(s.active, e.item.key, score)
    requires j in s.active && j.sender == e.item.key.sender && j != e.item.key
    ensures j.nonce < e.item.key.nonce ==> !Outranks(e.clamped, s.active[j].clamped)
    ensures j.nonce > e.item.key.nonce ==> !Outranks(s.active[j].clamped, e.clamped)
  {
    var k := e.item.key;
    var raw := Rank(score, s.order);
    Neighbours(s, k, j);
    ClampInRun(s, k, raw);
    hide Clamp, Contiguous;
    if j.nonce < k.nonce {
      var prev := s.active[Key(k.sender, k.nonce - 1)].clamped;
      LowerNeverOutranks(raw, prev);
      RankChain(e.clamped, prev, s.active[j].clamped);
    } else {
      assert j.nonce > k.nonce;
      var next := s.active[Key(k.sender, k.nonce + 1)].clamped;
      assert !Outranks(next, raw);
      RankChain(s.active[j].clamped, next, raw);
    }
  }

  /** Replacing an entry of a run keeps ranks falling exactly when the new score beats the following entry's. */
  lemma ReplacementRanks(s: State, e: Entry, score: int)
    requires Keyed(s) && Contiguous(s) && RanksFall(s.active) && Fresh(s)
    requires e.item.key in s.active && e.clamped == Clamp(s.active, e.item.key, Rank(score, s.order))
    ensures RanksFall(s.active[e.item.key := e]) <==> KeepsRank(s.active, e.item.key, score)
  {
    var k := e.item.key;
    var active' := s.active[k := e];
    if KeepsRank(s.active, k, score) {
      forall i, j | i in active' && j in active' && i.sender == j.sender && i.nonce < j.nonce
        ensures !Outranks(active'[j].clamped, active'[i].clamped)
      {
        if i == k { ReplacedRank(s, e, score, j); } else if j == k { ReplacedRank(s, e, score, i); }
      }
    } else {
      var next := Key(k.sender, k.nonce + 1);
      ClampInRun(s, k, Rank(score, s.order));
      assert k in active' && next in active';
      assert Outranks(active'[next].clamped, active'[k].clamped);
    }
  }

  /** Replacement keeps the whole invariant exactly when the new score beats the following entry's. */
  lemma ReplaceInv(c: Config, s: State, e: Entry)
    requires Inv(c, s) && Fresh(s) && e.item.key in s.active && EntryOk(c, s, e)
    requires e.clamped == Clamp(s.active, e.item.key, Rank(Score(e.tier, e.item.priority), s.order))
    ensures Inv(c, Activate(s, e)) <==> KeepsRank(s.active, e.item.key, Score(e.tier, e.item.priority))
  {
    ReplacementRanks(s, e, Score(e.tier, e.item.priority));
    ReplaceKeepsShape(s, e);
    SizePut(s.active, e.item.key, e);
    hide Clamp, KeepsRank, RanksFall, Contiguous, QueueBeyond, NoncesOf;
    assert Stamped(c, Activate(s, e));
  }

  lemma ReplaceKeepsShape(s: State, e: Entry)
    requires Keyed(s) && Contiguous(s) && QueueBeyond(s) && e.item.key in s.active
    ensures Keyed(Activate(s, e)) && Contiguous(Activate(s, e)) && QueueBeyond(Activate(s, e))
  {
  }

  /** A replacement of higher priority in the same or a better tier always keeps the rank order; with a single
      tier, as in app/abcipp.go, that is every replacement `Insert` admits. */
  lemma BetterTierKeepsRank(c: Config, s: State, key: Key, tier: int, priority: int)
    requires Inv(c, s) && key in s.active
    requires tier <= s.active[key].tier && priority > s.active[key].item.priority
    ensures KeepsRank(s.active, key, Score(tier, priority))
  {
    var next := Key(key.sender, key.nonce + 1);
    if next in s.active {
      assert !Outranks(s.active[next].clamped, s.active[key].clamped);
      assert s.active[key].clamped.score <= Score(s.active[key].tier, s.active[key].item.priority);
    }
  }
}
