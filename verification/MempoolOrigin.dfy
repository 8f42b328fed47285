/** Nothing in the pool is made up: over any run whatever, every pooled transaction is one that some `Insert` built.
    This needs no invariant, so it holds also after a replacement that breaks the rank order. */
module MempoolOrigin {
  import opened Common
  import opened MempoolTypes
  import opened MempoolState
  import opened MempoolConservation
  import opened MempoolLaws
  import opened MempoolRuns

  ghost predicate All(p: Item -> bool, m: map<Key, Entry>) {
    forall k {:trigger k in m} :: k in m ==> m[k].item.key == k && p(m[k].item)
  }

  ghost predicate Each(p: Item -> bool, es: seq<Entry>) {
    forall i {:trigger es[i]} :: 0 <= i < |es| ==> p(es[i].item)
  }

  /** Everything in the pool is filed under its own key and satisfies `p`. */
  ghost predicate Pools(p: Item -> bool, s: State) { All(p, s.active) && All(p, s.queued) }

  // ---- queueing and removal -------------------------------------------------------------------

  lemma {:induction false} RunEach(p: Item -> bool, m: map<Key, Entry>, sender: string, lo: nat, hi: nat)
    requires All(p, m)
    ensures Each(p, Run(m, sender, lo, hi))
    decreases hi
  {
    if hi > lo {
      RunEach(p, m, sender, lo, hi - 1);
    }
  }

  lemma EnqueuePools(p: Item -> bool, c: Config, s: State, e: Entry)
    requires Pools(p, s) && p(e.item)
    ensures Pools(p, Enqueue(c, s, e).state)
  {
    hide NoncesOf, MaxOf;
  }

  lemma {:induction false} EnqueueAllPools(p: Item -> bool, c: Config, s: State, es: seq<Entry>)
    requires Pools(p, s) && Each(p, es)
    ensures Pools(p, EnqueueAll(c, s, es).state)
    decreases |es|
  {
    if es != [] {
      var init := es[..|es| - 1];
      assert forall i {:trigger init[i]} :: 0 <= i < |init| ==> init[i] == es[i];
      EnqueueAllPools(p, c, s, init);
      assert p(es[|es| - 1].item);
      EnqueuePools(p, c, EnqueueAll(c, s, init).state, AsQueued(es[|es| - 1]));
      hide Enqueue, Pools;
    }
  }

  lemma DemotePools(p: Item -> bool, c: Config, s: State, sender: string, start: nat)
    requires Pools(p, s)
    ensures Pools(p, Demote(c, s, sender, start).state)
  {
    hide Run, EnqueueAll;
    var a := NoncesOf(s.active, sender);
    if a != {} && start <= MaxOf(a) {
      RunEach(p, s.active, sender, start, MaxOf(a) + 1);
      EnqueueAllPools(p, c, s.(active := CutFrom(s.active, sender, start)), Run(s.active, sender, start, MaxOf(a) + 1));
    }
  }

  lemma StalePools(p: Item -> bool, s: State, sender: string, seqNo: nat)
    requires Pools(p, s)
    ensures Pools(p, RemoveStale(SetSeq(s, sender, seqNo), sender, seqNo).state)
  {
    hide Run;
  }

  lemma CorePools(p: Item -> bool, c: Config, s: State, k: Key, reason: Reason)
    requires Pools(p, s)
    ensures Pools(p, RemoveCore(c, s, k, reason).state)
  {
    hide Demote;
    DemotePools(p, c, s, k.sender, k.nonce);
    DemotePools(p, c, RemoveNonce(s, k).state, k.sender, k.nonce + 1);
  }

  lemma RemovePools(p: Item -> bool, c: Config, s: State, k: Key, reason: Reason, onChain: Option<nat>)
    requires Pools(p, s)
    ensures Pools(p, RemoveByReason(c, s, k, reason, onChain).state)
  {
    hide RemoveCore, RemoveStale, SetSeq, IsEmpty, All;
    var core := RemoveCore(c, s, k, reason).state;
    CorePools(p, c, s, k, reason);
    if onChain.Some? {
      StalePools(p, core, k.sender, onChain.value);
    }
  }

  // ---- promotion ------------------------------------------------------------------------------

  lemma {:induction false} ChainEach(p: Item -> bool, queued: map<Key, Entry>, sender: string, n: nat)
    requires All(p, queued)
    ensures Each(p, Chain(queued, sender, n))
    decreases |queued|
  {
    var k := Key(sender, n);
    if k in queued {
      ChainEach(p, queued - {k}, sender, n + 1);
    }
  }

  lemma {:induction false} RequeuePools(p: Item -> bool, queued: map<Key, Entry>, es: seq<Entry>)
    requires All(p, queued) && Each(p, es)
    ensures All(p, Requeue(queued, es))
    decreases |es|
  {
    if es != [] {
      var init := es[..|es| - 1];
      assert forall i {:trigger init[i]} :: 0 <= i < |init| ==> init[i] == es[i];
      RequeuePools(p, queued, init);
      assert p(es[|es| - 1].item);
    }
  }

  lemma EnterPools(p: Item -> bool, c: Config, s: State, adm: Admission, e: Entry)
    requires Pools(p, s) && p(e.item)
    ensures Pools(p, Activate(MakeRoom(c, s, adm).state, e))
  {
    if adm.Evict? {
      RemovePools(p, c, s, adm.victim.item.key, CapacityEvicted, None);
    }
    hide RemoveByReason;
  }

  lemma {:induction false} PromoteAllPools(p: Item -> bool, c: Config, s: State, ctx: Ctx, es: seq<Entry>)
    requires Pools(p, s) && Each(p, es)
    ensures Pools(p, PromoteAll(c, s, ctx, es).state)
    decreases |es|
  {
    hide Stamp, Admit, MakeRoom, Requeue, All;
    if es != [] {
      var s1 := Tick(s);
      var e := Stamp(c, s1, ctx, es[0].item);
      var rest := es[1..];
      var adm := Admit(c, s1, ctx.block, e, false);
      StampItem(c, s1, ctx, es[0].item);
      assert forall i {:trigger rest[i]} :: 0 <= i < |rest| ==> rest[i] == es[i + 1];
      if adm.Refused? {
        RequeuePools(p, s1.queued, [e] + rest);
      } else {
        EnterPools(p, c, s1, adm, e);
        PromoteAllPools(p, c, Activate(MakeRoom(c, s1, adm).state, e), ctx, rest);
      }
    }
  }

  lemma PromotePools(p: Item -> bool, c: Config, s: State, ctx: Ctx, sender: string)
    requires Pools(p, s)
    ensures Pools(p, Promote(c, s, ctx, sender).state)
  {
    hide PromoteAll, Chain, Next;
    if sender in s.infos {
      ChainEach(p, s.queued, sender, Next(s, sender));
    }
    var es := if sender in s.infos then Chain(s.queued, sender, Next(s, sender)) else [];
    PromoteAllPools(p, c, s.(queued := s.queued - KeysOf(es)), ctx, es);
  }

  lemma {:induction false} PromoteSendersPools(p: Item -> bool, c: Config, s: State, ctx: Ctx, seqs: seq<(string, nat)>)
    requires Pools(p, s)
    ensures Pools(p, PromoteSenders(c, s, ctx, seqs).state)
  {
    if seqs != [] {
      var init := seqs[..|seqs| - 1];
      PromoteSendersPools(p, c, s, ctx, init);
      PromoteSenderPools(p, c, PromoteSenders(c, s, ctx, init).state, ctx, seqs[|seqs| - 1].0, seqs[|seqs| - 1].1);
      hide PromoteSender, Pools;
    }
  }

  lemma PromoteSenderPools(p: Item -> bool, c: Config, s: State, ctx: Ctx, sender: string, seqNo: nat)
    requires Pools(p, s)
    ensures Pools(p, PromoteSender(c, s, ctx, sender, seqNo).state)
  {
    hide RemoveStale, SetSeq, Promote, IsEmpty, All;
    StalePools(p, s, sender, seqNo);
    PromotePools(p, c, RemoveStale(SetSeq(s, sender, seqNo), sender, seqNo).state, ctx, sender);
  }

  // ---- inserting and cleaning up --------------------------------------------------------------

  lemma InsertActivePools(p: Item -> bool, c: Config, s: State, ctx: Ctx, item: Item)
    requires item.key.sender in s.infos && Pools(p, s) && p(item)
    ensures Pools(p, InsertActive(c, s, ctx, item).state)
  {
    hide Stamp, Admit, MakeRoom, Promote, EventsOf, Occupants;
    var k := item.key;
    var s1 := Tick(s);
    var e := Stamp(c, s1, ctx, item);
    var adm := Admit(c, s1, ctx.block, e, k in s.active);
    var s2 := s1.(active := s1.active - {k}, queued := s1.queued - {k});
    StampItem(c, s1, ctx, item);
    EnterPools(p, c, s2, adm, e);
    PromotePools(p, c, Activate(MakeRoom(c, s2, adm).state, e), ctx, k.sender);
  }

  lemma InsertPools(p: Item -> bool, c: Config, s: State, ctx: Ctx, tx: Tx, fetched: Option<nat>)
    requires Pools(p, s) && (Routed(s, ctx, tx, fetched) ==> p(NewItem(ctx, tx)))
    ensures Pools(p, Insert(c, s, ctx, tx, fetched).state)
  {
    hide InsertActive, Enqueue, EventsOf, Next, All;
    if Routed(s, ctx, tx, fetched) {
      var sender := tx.signer.value.sender;
      var s1 := if fetched.Some? then Register(s, sender, fetched.value) else s;
      var item := NewItem(ctx, tx);
      InsertActivePools(p, c, s1, ctx.(txBytes := InsertBytes(ctx, tx).value), item);
      EnqueuePools(p, c, s1, Entry(item, 0, QUEUED_TIER, Rank(0, 0)));
    }
  }

  lemma CleanSenderPools(p: Item -> bool, c: Config, s: State, sender: string, seqNo: nat, now: int)
    requires Pools(p, s)
    ensures Pools(p, CleanSender(c, s, sender, seqNo, now).state)
  {
    hide Run, CutBelow, Expire, IsEmpty, All;
    StalePools(p, s, sender, seqNo);
    if sender in s.infos {
      ExpirePools(p, c, RemoveStale(SetSeq(s, sender, seqNo), sender, seqNo).state, sender, now);
    }
  }

  lemma ExpirePools(p: Item -> bool, c: Config, s: State, sender: string, now: int)
    requires sender in s.infos && Pools(p, s)
    ensures Pools(p, Expire(c, s, sender, now).state)
  {
    hide Run, HasGap, NoncesOf, MaxOf;
  }

  lemma {:induction false} CleanSendersPools(p: Item -> bool, c: Config, s: State, seqs: seq<(string, nat)>, now: int)
    requires Pools(p, s)
    ensures Pools(p, CleanSenders(c, s, seqs, now).state)
  {
    if seqs != [] {
      var init := seqs[..|seqs| - 1];
      CleanSendersPools(p, c, s, init, now);
      CleanSenderPools(p, c, CleanSenders(c, s, init, now).state, seqs[|seqs| - 1].0, seqs[|seqs| - 1].1, now);
      hide CleanSender, Pools;
    }
  }

  // ---- runs -----------------------------------------------------------------------------------

  /** The transaction that a step would store satisfies `p`. */
  ghost predicate Stores(p: Item -> bool, step: Step) {
    step.DoInsert? && step.tx.signer.Some? && InsertBytes(step.ctx, step.tx).Some? && step.tx.gasLimit.Some? ==>
      p(NewItem(step.ctx, step.tx))
  }

  lemma StepPools(p: Item -> bool, c: Config, s: State, step: Step)
    requires Pools(p, s) && Stores(p, step)
    ensures Pools(p, Apply(c, s, step).state)
  {
    hide Insert, RemoveByReason, PromoteSenders, CleanupAll, CleanSenders, EventsOf, IsEmpty, All;
    match step
    case DoInsert(ctx, tx, fetched) => InsertPools(p, c, s, ctx, tx, fetched);
    case DoRemove(tx, reason) =>
      if tx.signer.Some? {
        var k := tx.signer.value;
        RemovePools(p, c, s, k, reason, if reason == CommittedInBlock then Some(k.nonce + 1) else None);
      }
    case DoPromote(ctx, seqs, activeOnly) =>
      PromoteSendersPools(p, c, s, ctx, seqs);
      CleanupAllKeeps(PromoteSenders(c, s, ctx, seqs).state, activeOnly);
    case DoClean(seqs, now) => CleanSendersPools(p, c, s, seqs, now);
    case DoSweep =>
  }

  /** Over any run, every pooled transaction is filed under its own key, and whatever holds of every transaction that an
      insert stores holds of every pooled one. */
  lemma {:induction false} RunPools(p: Item -> bool, c: Config, steps: seq<Step>)
    requires forall i {:trigger steps[i]} :: 0 <= i < |steps| ==> Stores(p, steps[i])
    ensures Pools(p, After(c, EMPTY, steps))
  {
    hide Apply, Stores;
    if steps != [] {
      var init := steps[..|steps| - 1];
      assert forall i {:trigger init[i]} :: 0 <= i < |init| ==> init[i] == steps[i];
      RunPools(p, c, init);
      assert Stores(p, steps[|steps| - 1]);
      StepPools(p, c, After(c, EMPTY, init), steps[|steps| - 1]);
    }
  }
}
