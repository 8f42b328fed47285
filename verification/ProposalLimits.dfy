/** Admission keeps out what fits no block, so what is built from the pool stays within the block limits. */
module ProposalLimits {
  import opened Common
  import opened MempoolTypes
  import opened MempoolState
  import opened MempoolPreservation
  import opened MempoolConservation
  import opened MempoolRuns
  import opened Proposals
  import opened ProposalCoherence

  /** Every active transaction fits a block of these limits. */
  ghost predicate AllFit(block: Option<BlockLimits>, active: map<Key, Entry>) {
    forall k {:trigger k in active} :: k in active ==> Fits(block, active[k].item)
  }

  // ---- what only removes ----------------------------------------------------------------------

  lemma DemoteWithin(c: Config, s: State, sender: string, start: nat)
    ensures Submap(Demote(c, s, sender, start).state.active, s.active)
  {
    var a := NoncesOf(s.active, sender);
    if a != {} && start <= MaxOf(a) {
      EnqueueAllTouchesQueue(c, s.(active := CutFrom(s.active, sender, start)),
                             Run(s.active, sender, start, MaxOf(a) + 1));
    }
  }

  lemma CoreWithin(c: Config, s: State, k: Key, reason: Reason)
    ensures Submap(RemoveCore(c, s, k, reason).state.active, s.active)
  {
    hide Demote;
    DemoteWithin(c, s, k.sender, k.nonce);
    DemoteWithin(c, RemoveNonce(s, k).state, k.sender, k.nonce + 1);
  }

  lemma StaleWithin(s: State, sender: string, seqNo: nat)
    ensures Submap(RemoveStale(SetSeq(s, sender, seqNo), sender, seqNo).state.active, s.active)
  {
    hide Run;
  }

  lemma WithinThen(a: map<Key, Entry>, b: map<Key, Entry>, d: map<Key, Entry>)
    requires Submap(a, b) && Submap(b, d)
    ensures Submap(a, d)
  {
  }

  lemma RemoveWithin(c: Config, s: State, k: Key, reason: Reason, onChain: Option<nat>)
    ensures Submap(RemoveByReason(c, s, k, reason, onChain).state.active, s.active)
  {
    CoreWithin(c, s, k, reason);
    hide RemoveCore, RemoveStale, SetSeq, IsEmpty, Submap;
    var core := RemoveCore(c, s, k, reason).state;
    if k.sender !in s.infos {
      WithinItself(s.active);
    } else if onChain.Some? {
      StaleWithin(core, k.sender, onChain.value);
      WithinThen(RemoveStale(SetSeq(core, k.sender, onChain.value), k.sender, onChain.value).state.active,
                 core.active, s.active);
    }
  }

  lemma WithinItself(a: map<Key, Entry>)
    ensures Submap(a, a)
  {
  }

  lemma {:induction false} CleanWithin(c: Config, s: State, seqs: seq<(string, nat)>, now: int)
    ensures Submap(CleanSenders(c, s, seqs, now).state.active, s.active)
  {
    if seqs != [] {
      var init := seqs[..|seqs| - 1];
      CleanWithin(c, s, init, now);
      CleanTurnWithin(c, CleanSenders(c, s, init, now).state, seqs[|seqs| - 1].0, seqs[|seqs| - 1].1, now);
      hide CleanSender;
    }
  }

  lemma CleanTurnWithin(c: Config, s: State, sender: string, seqNo: nat, now: int)
    ensures Submap(CleanSender(c, s, sender, seqNo, now).state.active, s.active)
  {
    StaleWithin(s, sender, seqNo);
    WithinItself(s.active);
    hide Run, HasGap, IsEmpty, RemoveStale, SetSeq, Submap;
  }

  // ---- what admits ----------------------------------------------------------------------------

  lemma EnterFits(c: Config, s: State, block: Option<BlockLimits>, e: Entry, t: State, replacing: bool)
    requires AllFit(block, t.active) && !Admit(c, s, block, e, replacing).Refused?
    ensures AllFit(block, Activate(MakeRoom(c, t, Admit(c, s, block, e, replacing)).state, e).active)
  {
    var adm := Admit(c, s, block, e, replacing);
    if adm.Evict? {
      RemoveWithin(c, t, adm.victim.item.key, CapacityEvicted, None);
    }
    hide RemoveByReason, Slot;
  }

  lemma {:induction false} PromoteAllFits(c: Config, s: State, ctx: Ctx, es: seq<Entry>)
    requires AllFit(ctx.block, s.active)
    ensures AllFit(ctx.block, PromoteAll(c, s, ctx, es).state.active)
    decreases |es|
  {
    hide AllFit, Stamp, Admit, MakeRoom, Requeue;
    if es != [] {
      var s1 := Tick(s);
      var e := Stamp(c, s1, ctx, es[0].item);
      var adm := Admit(c, s1, ctx.block, e, false);
      if !adm.Refused? {
        EnterFits(c, s1, ctx.block, e, s1, false);
        PromoteAllFits(c, Activate(MakeRoom(c, s1, adm).state, e), ctx, es[1..]);
      }
    }
  }

  lemma PromoteFits(c: Config, s: State, ctx: Ctx, sender: string)
    requires AllFit(ctx.block, s.active)
    ensures AllFit(ctx.block, Promote(c, s, ctx, sender).state.active)
  {
    hide AllFit, PromoteAll, Chain, Next;
    var es := if sender in s.infos then Chain(s.queued, sender, Next(s, sender)) else [];
    PromoteAllFits(c, s.(queued := s.queued - KeysOf(es)), ctx, es);
  }

  lemma PromoteSenderFits(c: Config, s: State, ctx: Ctx, sender: string, seqNo: nat)
    requires AllFit(ctx.block, s.active)
    ensures AllFit(ctx.block, PromoteSender(c, s, ctx, sender, seqNo).state.active)
  {
    var t := RemoveStale(SetSeq(s, sender, seqNo), sender, seqNo).state;
    assert AllFit(ctx.block, t.active);
    hide AllFit, Promote, IsEmpty, RemoveStale;
    PromoteFits(c, t, ctx, sender);
  }

  lemma {:induction false} PromoteSendersFit(c: Config, s: State, ctx: Ctx, seqs: seq<(string, nat)>)
    requires AllFit(ctx.block, s.active)
    ensures AllFit(ctx.block, PromoteSenders(c, s, ctx, seqs).state.active)
  {
    hide AllFit, PromoteSender;
    if seqs != [] {
      var init := seqs[..|seqs| - 1];
      PromoteSendersFit(c, s, ctx, init);
      PromoteSenderFits(c, PromoteSenders(c, s, ctx, init).state, ctx, seqs[|seqs| - 1].0, seqs[|seqs| - 1].1);
    }
  }

  lemma InsertActiveFits(c: Config, s: State, ctx: Ctx, item: Item)
    requires item.key.sender in s.infos && AllFit(ctx.block, s.active)
    ensures AllFit(ctx.block, InsertActive(c, s, ctx, item).state.active)
  {
    var k := item.key;
    var s1 := Tick(s);
    var e := Stamp(c, s1, ctx, item);
    var adm := Admit(c, s1, ctx.block, e, k in s.active);
    var s2 := s1.(active := s1.active - {k}, queued := s1.queued - {k});
    assert AllFit(ctx.block, s2.active);
    hide AllFit, Stamp, Admit, MakeRoom, Promote, EventsOf, Occupants;
    if !adm.Refused? {
      EnterFits(c, s1, ctx.block, e, s2, k in s.active);
      PromoteFits(c, Activate(MakeRoom(c, s2, adm).state, e), ctx, k.sender);
    }
  }

  lemma InsertFits(c: Config, s: State, ctx: Ctx, tx: Tx, fetched: Option<nat>)
    requires AllFit(ctx.block, s.active)
    ensures AllFit(ctx.block, Insert(c, s, ctx, tx, fetched).state.active)
  {
    hide AllFit, InsertActive, Enqueue, EventsOf, Next;
    if Routed(s, ctx, tx, fetched) {
      var sender := tx.signer.value.sender;
      var s1 := if fetched.Some? then Register(s, sender, fetched.value) else s;
      InsertActiveFits(c, s1, ctx.(txBytes := InsertBytes(ctx, tx).value), NewItem(ctx, tx));
      EnqueueKeepsActive(c, s1, Entry(NewItem(ctx, tx), 0, QUEUED_TIER, Rank(0, 0)));
    }
  }

  lemma EnqueueKeepsActive(c: Config, s: State, e: Entry)
    ensures Enqueue(c, s, e).state.active == s.active
  {
  }

  // ---- runs -----------------------------------------------------------------------------------

  /** Whatever a step admits, it admits under these limits. */
  ghost predicate UnderLimits(block: Option<BlockLimits>, step: Step) {
    (step.DoInsert? || step.DoPromote?) ==> step.ctx.block == block
  }

  lemma StepFits(c: Config, s: State, step: Step, block: Option<BlockLimits>)
    requires AllFit(block, s.active) && UnderLimits(block, step)
    ensures AllFit(block, Apply(c, s, step).state.active)
  {
    hide Insert, RemoveByReason, PromoteSenders, CleanupAll, CleanSenders, EventsOf, IsEmpty;
    match step
    case DoInsert(ctx, tx, fetched) => InsertFits(c, s, ctx, tx, fetched);
    case DoRemove(tx, reason) =>
      if tx.signer.Some? {
        var k := tx.signer.value;
        RemoveWithin(c, s, k, reason, if reason == CommittedInBlock then Some(k.nonce + 1) else None);
      }
    case DoPromote(ctx, seqs, activeOnly) =>
      PromoteSendersFit(c, s, ctx, seqs);
      CleanupAllKeeps(PromoteSenders(c, s, ctx, seqs).state, activeOnly);
    case DoClean(seqs, now) => CleanWithin(c, s, seqs, now);
    case DoSweep =>
  }

  /** In every state of every run under constant block limits, every active transaction fits a block. */
  lemma {:induction false} RunFits(c: Config, steps: seq<Step>, block: Option<BlockLimits>)
    requires forall i {:trigger steps[i]} :: 0 <= i < |steps| ==> UnderLimits(block, steps[i])
    ensures AllFit(block, After(c, EMPTY, steps).active)
  {
    hide Apply, AllFit;
    if steps == [] {
      NothingActive(block);
    } else {
      var init := steps[..|steps| - 1];
      assert forall i {:trigger init[i]} :: 0 <= i < |init| ==> init[i] == steps[i];
      RunFits(c, init, block);
      assert UnderLimits(block, steps[|steps| - 1]);
      StepFits(c, After(c, EMPTY, init), steps[|steps| - 1], block);
    }
  }

  lemma NothingActive(block: Option<BlockLimits>)
    ensures AllFit(block, EMPTY.active)
  {
  }

  /** So whatever run the pool went through under constant limits, the proposal built from it stays within them in bytes
      and in gas, and no machine total wraps. */
  lemma ProposalsFit<S>(c: Config, steps: seq<Step>, decode: Bytes -> Option<Tx>, ix: seq<Entry>,
                        block: Option<BlockLimits>, ante: (S, Tx) -> Option<S>, state: S)
    requires MadeRun(decode, steps)
    requires forall i {:trigger steps[i]} :: 0 <= i < |steps| ==> UnderLimits(block, steps[i])
    requires Indexes(ix, After(c, EMPTY, steps).active)
    requires IsI64(MaxGas(block)) && SizesAddUp(block, Infos(c, ix))
    ensures var b := BuildAll(block, ante, state, Infos(c, ix));
            && (MaxGas(block) > 0 ==> b.gas == RealGas(b.included) <= MaxGas(block))
            && (MaxBytes(block) > 0 ==> b.size == RealSize(b.included) <= MaxBytes(block))
  {
    hide MadeRun, After, BuildAll;
    var es := Infos(c, ix);
    RunFits(c, steps, block);
    forall i {:trigger es[i]} | 0 <= i < |es|
      ensures es[i].size >= 0
      ensures MaxBytes(block) > 0 ==> es[i].size <= MaxBytes(block)
      ensures MaxGas(block) > 0 ==> es[i].gasLimit <= MaxGas(block)
    {
      assert ix[i] in ix;
      PoolMade(c, steps, decode, ix[i].item.key);
      assert Fits(block, ix[i].item);
    }
    WithinLimits(block, ante, state, es);
  }
}
