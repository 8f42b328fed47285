/** Every critical section of the pool keeps its invariant. */
module MempoolSections {
  import opened Common
  import opened MempoolTypes
  import opened MempoolState
  import opened MempoolInvariant
  import opened MempoolPreservation
  import opened MempoolAdmission
  import opened MempoolPromotion

  // ---- an accepted active insert, before its promotions ------------------------------------------

  lemma ActiveBound(c: Config, s: State)
    requires Inv(c, s)
    ensures c.maxTx > 0 ==> |s.active| <= c.maxTx
    ensures c.Valid()
  {
  }

  lemma VictimActive(c: Config, s: State, block: Option<BlockLimits>, e: Entry, replacing: bool)
    ensures var adm := Admit(c, s, block, e, replacing);
            adm.Evict? ==> adm.victim.item.key in s.active && s.active[adm.victim.item.key] == adm.victim
  {
  }

  /** The slot is free and its sender registered. */
  ghost predicate HasSlot(s: State, k: Key) {
    k !in s.active && k !in s.queued && k.sender in s.infos
  }

  lemma RoomLeaves(c: Config, s: State, t: State, adm: Admission, k: Key)
    requires RoomMade(c, s, t, adm, k.sender) && k !in s.active && k !in s.queued
    ensures HasSlot(t, k)
  {
    assert SameOf(s.queued, t.queued, k.sender);
  }

  /** What `FinishInsertLocked` needs: the victims are still there once the slot is freed, the slot then exists,
      and the pool invariant will hold again before promotion. */
  ghost predicate Insertable(c: Config, s: State, e: Entry, adm: Admission) {
    var k := e.item.key;
    var t := s.(active := s.active - {k}, queued := s.queued - {k});
    && !adm.Refused? && 0 <= e.tier < |c.tiers|
    && (adm.Evict? ==> adm.victim.item.key in t.active)
    && HasSlot(MakeRoom(c, t, adm).state, k)
    && Inv(c, Activate(MakeRoom(c, t, adm).state, e))
  }

  lemma InsertReady(c: Config, s: State, ctx: Ctx, item: Item)
    requires Inv(c, s) && item.key.sender in s.infos
    requires item.key in s.active || AtNext(s, item.key)
    requires item.key in s.active ==> item.priority > s.active[item.key].item.priority
    requires SafeReplacement(c, s, ctx, item)
    ensures var s1 := Tick(s);
            var e := Stamp(c, s1, ctx, item);
            var adm := Admit(c, s1, ctx.block, e, item.key in s.active);
            && 0 <= e.tier < |c.tiers|
            && (!adm.Refused? ==> Insertable(c, s1, e, adm))
  {
    var s1 := Tick(s);
    var e := Stamp(c, s1, ctx, item);
    ActiveBound(c, s);
    hide Inv, Clamp, MakeRoom, Admit, AtNext, SafeReplacement;
    if item.key in s.active {
      ReplaceReady(c, s, ctx, item);
    } else {
      AppendReady(c, s, ctx, item);
    }
  }

  lemma ReplaceReady(c: Config, s: State, ctx: Ctx, item: Item)
    requires Inv(c, s) && item.key in s.active && item.key.sender in s.infos
    requires item.priority > s.active[item.key].item.priority && SafeReplacement(c, s, ctx, item)
    ensures var s1 := Tick(s);
            var e := Stamp(c, s1, ctx, item);
            var adm := Admit(c, s1, ctx.block, e, true);
            !adm.Refused? ==> Insertable(c, s1, e, adm)
  {
    ActiveBound(c, s);
    hide Inv, Clamp, Admit, SafeReplacement, RemoveByReason;
    ReplaceEntered(c, s, ctx, item);
  }

  lemma AppendReady(c: Config, s: State, ctx: Ctx, item: Item)
    requires Inv(c, s) && AtNext(s, item.key)
    ensures item.key !in s.active
    ensures var s1 := Tick(s);
            var e := Stamp(c, s1, ctx, item);
            var adm := Admit(c, s1, ctx.block, e, false);
            !adm.Refused? ==> Insertable(c, s1, e, adm)
  {
    var s1 := Tick(s);
    var e := Stamp(c, s1, ctx, item);
    var adm := Admit(c, s1, ctx.block, e, false);
    ActiveBound(c, s);
    VictimActive(c, s1, ctx.block, e, false);
    AtNextNotActive(c, s, item.key);
    hide Inv, Clamp, Admit, AtNext, MakeRoom, RoomMade;
    AppendEntered(c, s, ctx, item);
    MinusAbsent(s1.active, item.key);
    if !adm.Refused? {
      var s2 := s1.(queued := s1.queued - {item.key});
      RoomLeaves(c, s2, MakeRoom(c, s2, adm).state, adm, item.key);
    }
  }

  // ---- the sections ---------------------------------------------------------------------------

  lemma EmptyInv(c: Config)
    requires c.Valid()
    ensures Inv(c, EMPTY)
  {
  }

  lemma RegisterInv(c: Config, s: State, sender: string, seqNo: nat)
    requires Inv(c, s)
    ensures Inv(c, Register(s, sender, seqNo)) && sender in Register(s, sender, seqNo).infos
  {
    if sender !in s.infos {
      Shrink(c, s, Register(s, sender, seqNo));
    }
  }

  /** A nonce below the cursor is either the sender's active one or unknown; it is never queued. */
  lemma BelowNext(c: Config, s: State, k: Key)
    requires Inv(c, s) && k.sender in s.infos && k.nonce < Next(s, k.sender)
    ensures k !in s.queued
  {
    if k in s.queued {
      QueuedAtLeastNext(s, k);
    }
  }

  lemma FutureQueueable(c: Config, s: State, k: Key)
    requires Inv(c, s) && k.sender in s.infos && k.nonce >= Next(s, k.sender)
    ensures Queueable(s, k) && k !in s.active
  {
    NextIsRunEnd(s, k.sender);
    BeyondNextQueueable(c, s, k.sender, k.nonce);
    assert Key(k.sender, k.nonce) == k;
  }

  lemma InsertItemInv(c: Config, s: State, ctx: Ctx, item: Item)
    requires Inv(c, s) && item.key.sender in s.infos && SafeReplacement(c, s, ctx, item)
    ensures Inv(c, InsertItem(c, s, ctx, item).state)
  {
    hide Inv, Next, SafeReplacement, Enqueue, InsertActive, Queueable;
    var k := item.key;
    if k.nonce > Next(s, k.sender) {
      FutureQueueable(c, s, k);
      EnqueueInv(c, s, Entry(item, 0, QUEUED_TIER, Rank(0, 0)));
    } else {
      if k.nonce < Next(s, k.sender) {
        BelowNext(c, s, k);
      }
      if k in s.active || AtNext(s, k) {
        InsertActiveInv(c, s, ctx, item);
      }
    }
  }

  /** What `Insert` needs of the tiers, for the state it finds; see `SafeReplacement`. */
  ghost predicate SafeInsert(c: Config, s: State, ctx: Ctx, tx: Tx) {
    tx.signer.Some? && InsertBytes(ctx, tx).Some? && tx.gasLimit.Some? ==>
      SafeReplacement(c, s, ctx.(txBytes := InsertBytes(ctx, tx).value), NewItem(ctx, tx))
  }

  lemma InsertInv(c: Config, s: State, ctx: Ctx, tx: Tx, fetched: Option<nat>)
    requires Inv(c, s) && SafeInsert(c, s, ctx, tx)
    ensures Inv(c, Insert(c, s, ctx, tx, fetched).state)
  {
    hide Inv, InsertItem;
    if tx.signer.Some? && InsertBytes(ctx, tx).Some? && tx.gasLimit.Some? {
      var sender := tx.signer.value.sender;
      if fetched.Some? {
        RegisterInv(c, s, sender, fetched.value);
      }
      if fetched.Some? || sender in s.infos {
        var s1 := if fetched.Some? then Register(s, sender, fetched.value) else s;
        InsertItemInv(c, s1, ctx.(txBytes := InsertBytes(ctx, tx).value), NewItem(ctx, tx));
      }
    }
  }

  /** With one tier, as app/abcipp.go configures, every replacement is safe. */
  lemma SingleTierIsSafe(c: Config, s: State, ctx: Ctx, tx: Tx)
    requires Inv(c, s) && |c.tiers| == 1
    ensures SafeInsert(c, s, ctx, tx)
  {
    if tx.signer.Some? && InsertBytes(ctx, tx).Some? && tx.gasLimit.Some? {
      var item := NewItem(ctx, tx);
      var tier := TierFrom(c.tiers, 0, ctx.(txBytes := item.bytes), item.tx);
      if item.key in s.active && item.priority > s.active[item.key].item.priority {
        assert 0 <= s.active[item.key].tier < |c.tiers|;
        BetterTierKeepsRank(c, s, item.key, tier, item.priority);
      }
    }
  }

  lemma RemoveInv(c: Config, s: State, tx: Tx, reason: Reason)
    requires Inv(c, s)
    ensures Inv(c, Remove(c, s, tx, reason).state)
  {
    hide Inv, RemoveByReason;
    if tx.signer.Some? {
      RemoveByReasonInv(c, s, tx.signer.value, reason);
    }
  }

  lemma PromoteSenderInv(c: Config, s: State, ctx: Ctx, sender: string, seqNo: nat)
    requires Inv(c, s)
    ensures Inv(c, PromoteSender(c, s, ctx, sender, seqNo).state)
  {
    hide Inv, SetSeq, RemoveStale, Promote, Cleanup;
    if sender in s.infos {
      var stale := RemoveStale(SetSeq(s, sender, seqNo), sender, seqNo);
      StaleInv(c, s, sender, seqNo);
      PromoteInv(c, stale.state, ctx, sender);
      CleanupInv(c, Promote(c, stale.state, ctx, sender).state, sender);
    }
  }

  lemma {:induction false} PromoteSendersInv(c: Config, s: State, ctx: Ctx, seqs: seq<(string, nat)>)
    requires Inv(c, s)
    ensures Inv(c, PromoteSenders(c, s, ctx, seqs).state)
  {
    hide Inv, PromoteSender;
    if seqs != [] {
      PromoteSendersInv(c, s, ctx, seqs[..|seqs| - 1]);
      PromoteSenderInv(c, PromoteSenders(c, s, ctx, seqs[..|seqs| - 1]).state, ctx, seqs[|seqs| - 1].0,
                       seqs[|seqs| - 1].1);
    }
  }

  lemma {:induction false} CleanupAllInv(c: Config, s: State, senders: seq<string>)
    requires Inv(c, s)
    ensures Inv(c, CleanupAll(s, senders))
  {
    hide Inv, Cleanup;
    if senders != [] {
      CleanupAllInv(c, s, senders[..|senders| - 1]);
      CleanupInv(c, CleanupAll(s, senders[..|senders| - 1]), senders[|senders| - 1]);
    }
  }

  lemma PromoteQueuedInv(c: Config, s: State, ctx: Ctx, seqs: seq<(string, nat)>, activeOnly: seq<string>)
    requires Inv(c, s)
    ensures Inv(c, PromoteQueued(c, s, ctx, seqs, activeOnly).state)
  {
    hide Inv;
    PromoteSendersInv(c, s, ctx, seqs);
    CleanupAllInv(c, PromoteSenders(c, s, ctx, seqs).state, activeOnly);
  }

  lemma SetGapInv(c: Config, s: State, sender: string, gapSince: Option<int>)
    requires Inv(c, s) && sender in s.infos
    ensures Inv(c, SetGap(s, sender, gapSince))
  {
    hide NoncesOf;
    Shrink(c, s, SetGap(s, sender, gapSince));
  }

  lemma CutQueuedInv(c: Config, s: State, sender: string)
    requires Inv(c, s)
    ensures Inv(c, s.(queued := CutFrom(s.queued, sender, 0)))
  {
    hide NoncesOf;
    Shrink(c, s, s.(queued := CutFrom(s.queued, sender, 0)));
  }

  lemma ExpireInv(c: Config, s: State, sender: string, now: int)
    requires Inv(c, s) && sender in s.infos
    ensures Inv(c, Expire(c, s, sender, now).state)
  {
    SetGapInv(c, s, sender, None);
    SetGapInv(c, s, sender, Some(now));
    CutQueuedInv(c, SetGap(s, sender, None), sender);
    hide Inv, HasGap, SetGap, CutFrom;
  }

  lemma CleanSenderInv(c: Config, s: State, sender: string, seqNo: nat, now: int)
    requires Inv(c, s)
    ensures Inv(c, CleanSender(c, s, sender, seqNo, now).state)
  {
    hide Inv, SetSeq, RemoveStale, Expire, Cleanup;
    if sender in s.infos {
      var stale := RemoveStale(SetSeq(s, sender, seqNo), sender, seqNo);
      StaleInv(c, s, sender, seqNo);
      ExpireInv(c, stale.state, sender, now);
      CleanupInv(c, Expire(c, stale.state, sender, now).state, sender);
    }
  }

  lemma {:induction false} CleanSendersInv(c: Config, s: State, seqs: seq<(string, nat)>, now: int)
    requires Inv(c, s)
    ensures Inv(c, CleanSenders(c, s, seqs, now).state)
  {
    hide Inv, CleanSender;
    if seqs != [] {
      CleanSendersInv(c, s, seqs[..|seqs| - 1], now);
      CleanSenderInv(c, CleanSenders(c, s, seqs[..|seqs| - 1], now).state, seqs[|seqs| - 1].0, seqs[|seqs| - 1].1, now);
    }
  }

  lemma SweepInv(c: Config, s: State)
    requires Inv(c, s)
    ensures Inv(c, Sweep(s))
  {
    forall k | k in s.active || k in s.queued ensures !IsEmpty(s, k.sender) {
      assert Key(k.sender, k.nonce) == k;
    }
    hide IsEmpty;
    Shrink(c, s, Sweep(s));
  }
}
