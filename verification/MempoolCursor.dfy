/** The cached on-chain sequence of a registered sender never goes back. */
module MempoolCursor {
  import opened Common
  import opened MempoolTypes
  import opened MempoolState
  import opened MempoolPreservation
  import opened MempoolRuns

  /** No sender appears, and no remaining sender's sequence decreases. */
  ghost predicate Forward(s: State, t: State) {
    forall a {:trigger a in t.infos} :: a in t.infos ==> a in s.infos && t.infos[a].seqNo >= s.infos[a].seqNo
  }

  /** Moreover no gap clock changes. */
  ghost predicate Steady(s: State, t: State) {
    forall a {:trigger a in t.infos} :: a in t.infos ==>
      a in s.infos && t.infos[a].seqNo >= s.infos[a].seqNo && t.infos[a].gapSince == s.infos[a].gapSince
  }

  lemma ForwardThen(s: State, t: State, u: State)
    requires Forward(s, t) && Forward(t, u)
    ensures Forward(s, u)
  {
  }

  lemma SteadyThen(s: State, t: State, u: State)
    requires Steady(s, t) && Steady(t, u)
    ensures Steady(s, u)
  {
  }

  lemma DemoteInfos(c: Config, s: State, sender: string, start: nat)
    ensures Demote(c, s, sender, start).state.infos == s.infos
  {
    hide EnqueueAll, Run, CutFrom;
    var a := NoncesOf(s.active, sender);
    if a != {} && start <= MaxOf(a) {
      EnqueueAllTouchesQueue(c, s.(active := CutFrom(s.active, sender, start)),
                             Run(s.active, sender, start, MaxOf(a) + 1));
    }
  }

  lemma CleanupSteady(s: State, sender: string)
    ensures Steady(s, Cleanup(s, sender))
  {
    hide IsEmpty;
  }

  lemma StaleSteady(s: State, sender: string, seqNo: nat)
    ensures Steady(s, RemoveStale(SetSeq(s, sender, seqNo), sender, seqNo).state)
  {
    hide Run, CutBelow;
  }

  lemma CoreInfos(c: Config, s: State, k: Key, reason: Reason)
    ensures RemoveCore(c, s, k, reason).state.infos == s.infos
  {
    hide Demote;
    DemoteInfos(c, s, k.sender, k.nonce);
    DemoteInfos(c, RemoveNonce(s, k).state, k.sender, k.nonce + 1);
  }

  lemma RemoveByReasonSteady(c: Config, s: State, k: Key, reason: Reason, onChain: Option<nat>)
    ensures Steady(s, RemoveByReason(c, s, k, reason, onChain).state)
  {
    hide RemoveCore, RemoveStale, Cleanup, SetSeq;
    if k.sender in s.infos {
      var core := RemoveCore(c, s, k, reason);
      CoreInfos(c, s, k, reason);
      if onChain.None? {
        CleanupSteady(core.state, k.sender);
      } else {
        var stale := RemoveStale(SetSeq(core.state, k.sender, onChain.value), k.sender, onChain.value);
        StaleSteady(core.state, k.sender, onChain.value);
        CleanupSteady(stale.state, k.sender);
        SteadyThen(core.state, stale.state, Cleanup(stale.state, k.sender));
      }
    }
  }

  lemma {:induction false} PromoteAllSteady(c: Config, s: State, ctx: Ctx, es: seq<Entry>)
    ensures Steady(s, PromoteAll(c, s, ctx, es).state)
    decreases |es|
  {
    hide Stamp, Admit, RemoveByReason, Requeue;
    if es != [] {
      var s1 := Tick(s);
      var e := Stamp(c, s1, ctx, es[0].item);
      var adm := Admit(c, s1, ctx.block, e, false);
      if !adm.Refused? {
        var room := MakeRoom(c, s1, adm);
        if adm.Evict? {
          RemoveByReasonSteady(c, s1, adm.victim.item.key, CapacityEvicted, None);
        }
        PromoteAllSteady(c, Activate(room.state, e), ctx, es[1..]);
        SteadyThen(s, Activate(room.state, e), PromoteAll(c, Activate(room.state, e), ctx, es[1..]).state);
      }
    }
  }

  lemma PromoteSteady(c: Config, s: State, ctx: Ctx, sender: string)
    ensures Steady(s, Promote(c, s, ctx, sender).state)
  {
    hide Next, Chain, KeysOf, PromoteAll;
    var es := if sender in s.infos then Chain(s.queued, sender, Next(s, sender)) else [];
    PromoteAllSteady(c, s.(queued := s.queued - KeysOf(es)), ctx, es);
  }

  lemma InsertActiveSteady(c: Config, s: State, ctx: Ctx, item: Item)
    requires item.key.sender in s.infos
    ensures Steady(s, InsertActive(c, s, ctx, item).state)
  {
    hide Stamp, Admit, RemoveByReason, Promote, Occupants, EventsOf;
    var k := item.key;
    var s1 := Tick(s);
    var e := Stamp(c, s1, ctx, item);
    var adm := Admit(c, s1, ctx.block, e, k in s.active);
    var s2 := s1.(active := s1.active - {k}, queued := s1.queued - {k});
    if adm.Evict? {
      RemoveByReasonSteady(c, s2, adm.victim.item.key, CapacityEvicted, None);
    }
    var s3 := Activate(MakeRoom(c, s2, adm).state, e);
    PromoteSteady(c, s3, ctx, k.sender);
    SteadyThen(s, s3, Promote(c, s3, ctx, k.sender).state);
  }

  lemma InsertItemSteady(c: Config, s: State, ctx: Ctx, item: Item)
    requires item.key.sender in s.infos
    ensures Steady(s, InsertItem(c, s, ctx, item).state)
  {
    hide InsertActive, Next, Enqueue, EventsOf;
    InsertActiveSteady(c, s, ctx, item);
    EnqueueInfos(c, s, Entry(item, 0, QUEUED_TIER, Rank(0, 0)));
  }

  lemma EnqueueInfos(c: Config, s: State, e: Entry)
    ensures Enqueue(c, s, e).state.infos == s.infos
  {
  }

  lemma {:induction false} PromoteSendersSteady(c: Config, s: State, ctx: Ctx, seqs: seq<(string, nat)>)
    ensures Steady(s, PromoteSenders(c, s, ctx, seqs).state)
  {
    hide SetSeq, RemoveStale, Promote, Cleanup;
    if seqs != [] {
      var init := seqs[..|seqs| - 1];
      var (sender, seqNo) := seqs[|seqs| - 1];
      var before := PromoteSenders(c, s, ctx, init).state;
      PromoteSendersSteady(c, s, ctx, init);
      if sender in before.infos {
        var stale := RemoveStale(SetSeq(before, sender, seqNo), sender, seqNo).state;
        var p := Promote(c, stale, ctx, sender).state;
        StaleSteady(before, sender, seqNo);
        PromoteSteady(c, stale, ctx, sender);
        CleanupSteady(p, sender);
        SteadyThen(before, stale, p);
        SteadyThen(before, p, Cleanup(p, sender));
        SteadyThen(s, before, Cleanup(p, sender));
      }
    }
  }

  lemma {:induction false} CleanupAllSteady(s: State, senders: seq<string>)
    ensures Steady(s, CleanupAll(s, senders))
  {
    hide Cleanup;
    if senders != [] {
      var before := CleanupAll(s, senders[..|senders| - 1]);
      CleanupAllSteady(s, senders[..|senders| - 1]);
      CleanupSteady(before, senders[|senders| - 1]);
      SteadyThen(s, before, Cleanup(before, senders[|senders| - 1]));
    }
  }

  lemma ExpireForward(c: Config, s: State, sender: string, now: int)
    requires sender in s.infos
    ensures Forward(s, Expire(c, s, sender, now).state)
  {
    hide HasGap, CutFrom, Run, NoncesOf;
  }

  lemma {:induction false} CleanSendersForward(c: Config, s: State, seqs: seq<(string, nat)>, now: int)
    ensures Forward(s, CleanSenders(c, s, seqs, now).state)
  {
    hide Expire, Cleanup, Run, CutBelow;
    if seqs != [] {
      var init := seqs[..|seqs| - 1];
      var (sender, seqNo) := seqs[|seqs| - 1];
      var before := CleanSenders(c, s, init, now).state;
      CleanSendersForward(c, s, init, now);
      if sender in before.infos {
        var stale := RemoveStale(SetSeq(before, sender, seqNo), sender, seqNo).state;
        var expired := Expire(c, stale, sender, now).state;
        StaleSteady(before, sender, seqNo);
        ExpireForward(c, stale, sender, now);
        CleanupSteady(expired, sender);
        ForwardThen(before, stale, expired);
        ForwardThen(before, expired, Cleanup(expired, sender));
        ForwardThen(s, before, Cleanup(expired, sender));
      }
    }
  }

  /** A step other than a clean-up moves no gap clock: a registered sender keeps it, a new one has none. */
  lemma StepSteady(c: Config, s: State, step: Step, sender: string)
    requires !step.DoClean? && sender in Apply(c, s, step).state.infos
    ensures var info := Apply(c, s, step).state.infos[sender];
            if sender in s.infos then info.seqNo >= s.infos[sender].seqNo && info.gapSince == s.infos[sender].gapSince
            else info.gapSince == None
  {
    hide InsertItem, RemoveByReason, PromoteSenders, CleanupAll, CleanSenders, EventsOf, IsEmpty;
    match step
    case DoInsert(ctx, tx, fetched) =>
      if Routed(s, ctx, tx, fetched) {
        var s1 := if fetched.Some? then Register(s, tx.signer.value.sender, fetched.value) else s;
        InsertItemSteady(c, s1, ctx.(txBytes := InsertBytes(ctx, tx).value), NewItem(ctx, tx));
      }
    case DoRemove(tx, reason) =>
      if tx.signer.Some? {
        var k := tx.signer.value;
        RemoveByReasonSteady(c, s, k, reason, if reason == CommittedInBlock then Some(k.nonce + 1) else None);
      }
    case DoPromote(ctx, seqs, activeOnly) =>
      var p := PromoteSenders(c, s, ctx, seqs).state;
      PromoteSendersSteady(c, s, ctx, seqs);
      CleanupAllSteady(p, activeOnly);
      SteadyThen(s, p, CleanupAll(p, activeOnly));
    case DoSweep =>
  }

  /** A sender registered before and after a step has not lost sequence. */
  lemma StepForward(c: Config, s: State, step: Step, sender: string)
    requires sender in s.infos && sender in Apply(c, s, step).state.infos
    ensures Apply(c, s, step).state.infos[sender].seqNo >= s.infos[sender].seqNo
  {
    if step.DoClean? {
      hide CleanSenders, EventsOf;
      CleanSendersForward(c, s, step.seqs, step.now);
    } else {
      hide Apply;
      StepSteady(c, s, step, sender);
    }
  }

  ghost predicate LiveThroughout(c: Config, s: State, steps: seq<Step>, sender: string) {
    sender in After(c, s, steps).infos &&
    (steps != [] ==> LiveThroughout(c, s, steps[..|steps| - 1], sender))
  }

  /** Over any run, the sequence cached for a sender that stays registered never decreases. */
  lemma {:induction false} SequenceNeverFalls(c: Config, s: State, steps: seq<Step>, sender: string)
    requires LiveThroughout(c, s, steps, sender)
    ensures sender in s.infos
    ensures After(c, s, steps).infos[sender].seqNo >= s.infos[sender].seqNo
  {
    hide Apply;
    if steps != [] {
      SequenceNeverFalls(c, s, steps[..|steps| - 1], sender);
      StepForward(c, After(c, s, steps[..|steps| - 1]), steps[|steps| - 1], sender);
    }
  }
}
