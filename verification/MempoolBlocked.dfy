/** Which steps can let a blocked sender go between two clean-ups: without them, a sender whose gap is being counted is
    blocked all the time. */
module MempoolBlocked {
  import opened Common
  import opened MempoolTypes
  import opened MempoolState
  import opened MempoolInvariant
  import opened MempoolLaws
  import opened MempoolOrigin
  import opened MempoolRuns
  import opened MempoolExpiry

  ghost predicate Any(item: Item) { true }

  /** Every entry is filed under its own key. */
  ghost predicate Filed(s: State) { Pools(Any, s) }

  ghost predicate Idle(s: State, sender: string) { NoncesOf(s.active, sender) == {} }

  /** None of the entries belongs to the sender. */
  ghost predicate Foreign(es: seq<Entry>, sender: string) {
    forall i {:trigger es[i]} :: 0 <= i < |es| ==> es[i].item.key.sender != sender
  }

  // ---- what other senders' entries do to it -----------------------------------------------------

  lemma EnqueueElsewhere(c: Config, s: State, e: Entry, sender: string)
    requires e.item.key.sender != sender
    ensures SameView(s, Enqueue(c, s, e).state, sender)
  {
    hide NoncesOf, MaxOf;
    EnqueueChanges(c, s, e);
    hide Enqueue;
    NoncesElse(s.queued, Enqueue(c, s, e).state.queued, sender);
  }

  /** Only the queue changes, and only at keys of the entry's sender. */
  lemma EnqueueChanges(c: Config, s: State, e: Entry)
    ensures var t := Enqueue(c, s, e).state;
            t == s.(queued := t.queued) && SameElsewhere(s.queued, t.queued, e.item.key.sender)
  {
    hide NoncesOf, MaxOf;
  }

  lemma {:induction false} EnqueueAllElsewhere(c: Config, s: State, es: seq<Entry>, sender: string)
    requires Foreign(es, sender)
    ensures SameView(s, EnqueueAll(c, s, es).state, sender)
    decreases |es|
  {
    hide SameView, Enqueue;
    if es == [] {
      ViewItself(s, sender);
    } else {
      var init := es[..|es| - 1];
      var before := EnqueueAll(c, s, init).state;
      var e := es[|es| - 1];
      assert forall i {:trigger init[i]} :: 0 <= i < |init| ==> init[i] == es[i];
      EnqueueAllElsewhere(c, s, init, sender);
      EnqueueElsewhere(c, before, AsQueued(e), sender);
      ViewThen(s, before, Enqueue(c, before, AsQueued(e)).state, sender);
    }
  }

  lemma {:induction false} RunForeign(m: map<Key, Entry>, x: string, lo: nat, hi: nat, sender: string)
    requires All(Any, m) && x != sender
    ensures Foreign(Run(m, x, lo, hi), sender)
    decreases hi
  {
    if hi > lo {
      RunForeign(m, x, lo, hi - 1, sender);
    }
  }

  lemma DemoteElsewhere(c: Config, s: State, x: string, start: nat, sender: string)
    requires Filed(s) && x != sender
    ensures SameView(s, Demote(c, s, x, start).state, sender)
  {
    hide Run, EnqueueAll, NoncesOf;
    var a := NoncesOf(s.active, x);
    if a != {} && start <= MaxOf(a) {
      var t := s.(active := CutFrom(s.active, x, start));
      var es := Run(s.active, x, start, MaxOf(a) + 1);
      RunForeign(s.active, x, start, MaxOf(a) + 1, sender);
      NoncesElse(s.active, t.active, sender);
      EnqueueAllElsewhere(c, t, es, sender);
      ViewThen(s, t, EnqueueAll(c, t, es).state, sender);
    }
  }

  lemma NonceElsewhere(s: State, k: Key, sender: string)
    requires k.sender != sender
    ensures SameView(s, RemoveNonce(s, k).state, sender)
  {
    hide NoncesOf;
    NoncesElse(s.active, s.active - {k}, sender);
    NoncesElse(s.queued, s.queued - {k}, sender);
  }

  lemma CoreElsewhere(c: Config, s: State, k: Key, reason: Reason, sender: string)
    requires Filed(s) && k.sender != sender
    ensures SameView(s, RemoveCore(c, s, k, reason).state, sender)
  {
    hide SameView, Demote;
    var t := RemoveNonce(s, k).state;
    DemoteElsewhere(c, s, k.sender, k.nonce, sender);
    NonceElsewhere(s, k, sender);
    DemoteElsewhere(c, t, k.sender, k.nonce + 1, sender);
    ViewThen(s, t, Demote(c, t, k.sender, k.nonce + 1).state, sender);
  }

  lemma RemoveElsewhere(c: Config, s: State, k: Key, reason: Reason, onChain: Option<nat>, sender: string)
    requires Filed(s) && k.sender != sender
    ensures SameView(s, RemoveByReason(c, s, k, reason, onChain).state, sender)
  {
    hide SameView, RemoveCore, RemoveStale, SetSeq, Cleanup;
    if k.sender !in s.infos {
      ViewItself(s, sender);
    } else {
      var core := RemoveCore(c, s, k, reason).state;
      CoreElsewhere(c, s, k, reason, sender);
      if onChain.None? {
        CleanupElsewhere(core, k.sender, sender);
        ViewThen(s, core, Cleanup(core, k.sender), sender);
      } else {
        var stale := RemoveStale(SetSeq(core, k.sender, onChain.value), k.sender, onChain.value).state;
        StaleElsewhere(core, k.sender, onChain.value, sender);
        CleanupElsewhere(stale, k.sender, sender);
        ViewThen(s, core, stale, sender);
        ViewThen(s, stale, Cleanup(stale, k.sender), sender);
      }
    }
  }

  /** A sender without active entries is no victim. */
  lemma VictimElsewhere(c: Config, s: State, block: Option<BlockLimits>, e: Entry, replacing: bool, sender: string)
    requires Idle(s, sender)
    ensures var adm := Admit(c, s, block, e, replacing);
            adm.Evict? ==> adm.victim.item.key.sender != sender
  {
    var adm := Admit(c, s, block, e, replacing);
    if adm.Evict? {
      var k := adm.victim.item.key;
      assert Key(k.sender, k.nonce) in s.active;
      assert k.nonce in NoncesOf(s.active, k.sender);
    }
  }

  lemma EnterElsewhere(c: Config, s: State, adm: Admission, e: Entry, sender: string)
    requires Filed(s) && e.item.key.sender != sender && (adm.Evict? ==> adm.victim.item.key.sender != sender)
    ensures SameView(s, Activate(MakeRoom(c, s, adm).state, e), sender)
  {
    hide RemoveByReason, SameView;
    var room := MakeRoom(c, s, adm).state;
    if adm.Evict? {
      RemoveElsewhere(c, s, adm.victim.item.key, CapacityEvicted, None, sender);
    } else {
      ViewItself(s, sender);
    }
    ActivateElsewhere(room, e, sender);
    ViewThen(s, room, Activate(room, e), sender);
  }

  lemma ActivateElsewhere(s: State, e: Entry, sender: string)
    requires e.item.key.sender != sender
    ensures SameView(s, Activate(s, e), sender)
  {
    hide NoncesOf;
    NoncesElse(s.active, Activate(s, e).active, sender);
  }

  lemma {:induction false} RequeueElsewhere(queued: map<Key, Entry>, es: seq<Entry>, sender: string)
    requires Foreign(es, sender)
    ensures NoncesOf(Requeue(queued, es), sender) == NoncesOf(queued, sender)
    decreases |es|
  {
    hide NoncesOf;
    if es != [] {
      var init := es[..|es| - 1];
      var e := es[|es| - 1];
      assert forall i {:trigger init[i]} :: 0 <= i < |init| ==> init[i] == es[i];
      RequeueElsewhere(queued, init, sender);
      NoncesElse(Requeue(queued, init), Requeue(queued, init)[e.item.key := e], sender);
    }
  }

  lemma {:induction false} ChainForeign(queued: map<Key, Entry>, x: string, n: nat, sender: string)
    requires All(Any, queued) && x != sender
    ensures Foreign(Chain(queued, x, n), sender)
    decreases |queued|
  {
    var k := Key(x, n);
    if k in queued {
      ChainForeign(queued - {k}, x, n + 1, sender);
    }
  }

  lemma TickElsewhere(s: State, sender: string)
    ensures SameView(s, Tick(s), sender)
  {
  }

  lemma QueueElsewhere(s: State, queued: map<Key, Entry>, sender: string)
    requires NoncesOf(queued, sender) == NoncesOf(s.queued, sender)
    ensures SameView(s, s.(queued := queued), sender)
  {
  }

  lemma IdleView(s: State, t: State, sender: string)
    requires SameView(s, t, sender)
    ensures Idle(s, sender) <==> Idle(t, sender)
  {
  }

  lemma {:induction false} PromoteAllElsewhere(c: Config, s: State, ctx: Ctx, es: seq<Entry>, sender: string)
    requires Filed(s) && Each(Any, es) && Idle(s, sender) && Foreign(es, sender)
    ensures SameView(s, PromoteAll(c, s, ctx, es).state, sender)
    decreases |es|
  {
    hide Stamp, Admit, MakeRoom, Requeue, SameView, Idle, All;
    if es == [] {
      ViewItself(s, sender);
    } else {
      var s1 := Tick(s);
      var e := Stamp(c, s1, ctx, es[0].item);
      var rest := es[1..];
      var adm := Admit(c, s1, ctx.block, e, false);
      StampItem(c, s1, ctx, es[0].item);
      TickElsewhere(s, sender);
      IdleView(s, s1, sender);
      assert forall i {:trigger rest[i]} :: 0 <= i < |rest| ==> rest[i] == es[i + 1];
      if adm.Refused? {
        RequeueElsewhere(s1.queued, [e] + rest, sender);
        QueueElsewhere(s1, Requeue(s1.queued, [e] + rest), sender);
        ViewThen(s, s1, s1.(queued := Requeue(s1.queued, [e] + rest)), sender);
      } else {
        var t := Activate(MakeRoom(c, s1, adm).state, e);
        VictimElsewhere(c, s1, ctx.block, e, false, sender);
        EnterElsewhere(c, s1, adm, e, sender);
        EnterPools(Any, c, s1, adm, e);
        IdleView(s1, t, sender);
        PromoteAllElsewhere(c, t, ctx, rest, sender);
        ViewThen(s, s1, t, sender);
        ViewThen(s, t, PromoteAll(c, t, ctx, rest).state, sender);
      }
    }
  }

  lemma DropForeign(queued: map<Key, Entry>, es: seq<Entry>, sender: string)
    requires Foreign(es, sender)
    ensures NoncesOf(queued - KeysOf(es), sender) == NoncesOf(queued, sender)
  {
    hide NoncesOf;
    forall k: Key {:trigger k in queued} | k.sender == sender ensures k !in KeysOf(es) {
    }
    NoncesElse(queued, queued - KeysOf(es), sender);
  }

  lemma PromoteElsewhere(c: Config, s: State, ctx: Ctx, x: string, sender: string)
    requires Filed(s) && Idle(s, sender) && x != sender
    ensures SameView(s, Promote(c, s, ctx, x).state, sender)
  {
    hide PromoteAll, Chain, Next, SameView, NoncesOf, KeysOf;
    var es := if x in s.infos then Chain(s.queued, x, Next(s, x)) else [];
    if x in s.infos {
      ChainForeign(s.queued, x, Next(s, x), sender);
      ChainEach(Any, s.queued, x, Next(s, x));
    }
    var t := s.(queued := s.queued - KeysOf(es));
    DropForeign(s.queued, es, sender);
    QueueElsewhere(s, t.queued, sender);
    PromoteAllElsewhere(c, t, ctx, es, sender);
    ViewThen(s, t, PromoteAll(c, t, ctx, es).state, sender);
  }

  lemma PromoteSenderElsewhere(c: Config, s: State, ctx: Ctx, x: string, seqNo: nat, sender: string)
    requires Filed(s) && Idle(s, sender) && x != sender
    ensures SameView(s, PromoteSender(c, s, ctx, x, seqNo).state, sender)
  {
    hide RemoveStale, SetSeq, Promote, Cleanup, SameView, Idle, Pools;
    if x !in s.infos {
      ViewItself(s, sender);
    } else {
      var t := RemoveStale(SetSeq(s, x, seqNo), x, seqNo).state;
      var u := Promote(c, t, ctx, x).state;
      StaleElsewhere(s, x, seqNo, sender);
      StalePools(Any, s, x, seqNo);
      IdleView(s, t, sender);
      PromoteElsewhere(c, t, ctx, x, sender);
      CleanupElsewhere(u, x, sender);
      ViewThen(s, t, u, sender);
      ViewThen(s, u, Cleanup(u, x), sender);
    }
  }

  lemma {:induction false} PassElsewhere(c: Config, s: State, ctx: Ctx, seqs: seq<(string, nat)>, sender: string)
    requires Filed(s) && Idle(s, sender) && !Visits(seqs, sender)
    ensures SameView(s, PromoteSenders(c, s, ctx, seqs).state, sender)
  {
    hide PromoteSender, SameView, Idle, Pools;
    if seqs == [] {
      ViewItself(s, sender);
    } else {
      var n := |seqs| - 1;
      var before := PromoteSenders(c, s, ctx, seqs[..n]).state;
      NoTurnBefore(seqs, sender);
      PassElsewhere(c, s, ctx, seqs[..n], sender);
      PromoteSendersPools(Any, c, s, ctx, seqs[..n]);
      IdleView(s, before, sender);
      PromoteSenderElsewhere(c, before, ctx, seqs[n].0, seqs[n].1, sender);
      ViewThen(s, before, PromoteSender(c, before, ctx, seqs[n].0, seqs[n].1).state, sender);
    }
  }

  lemma InsertElsewhere(c: Config, s: State, ctx: Ctx, item: Item, sender: string)
    requires item.key.sender in s.infos && Filed(s) && Idle(s, sender) && item.key.sender != sender
    ensures SameView(s, InsertItem(c, s, ctx, item).state, sender)
  {
    hide Next, InsertActive, Enqueue, SameView, Idle, Pools, EventsOf;
    ViewItself(s, sender);
    EnqueueElsewhere(c, s, Entry(item, 0, QUEUED_TIER, Rank(0, 0)), sender);
    ActiveElsewhere(c, s, ctx, item, sender);
  }

  lemma ActiveElsewhere(c: Config, s: State, ctx: Ctx, item: Item, sender: string)
    requires item.key.sender in s.infos && Filed(s) && Idle(s, sender) && item.key.sender != sender
    ensures SameView(s, InsertActive(c, s, ctx, item).state, sender)
  {
    hide Stamp, Admit, MakeRoom, Promote, SameView, Idle, EventsOf, Occupants;
    var k := item.key;
    var s1 := Tick(s);
    var e := Stamp(c, s1, ctx, item);
    var adm := Admit(c, s1, ctx.block, e, k in s.active);
    var s2 := s1.(active := s1.active - {k}, queued := s1.queued - {k});
    var s3 := Activate(MakeRoom(c, s2, adm).state, e);
    StampItem(c, s1, ctx, item);
    TickElsewhere(s, sender);
    IdleView(s, s1, sender);
    DropElsewhere(s1, k, sender);
    ViewThen(s, s1, s2, sender);
    VictimElsewhere(c, s1, ctx.block, e, k in s.active, sender);
    EnterElsewhere(c, s2, adm, e, sender);
    ViewThen(s, s2, s3, sender);
    IdleView(s, s3, sender);
    EnterPools(Any, c, s2, adm, e);
    PromoteElsewhere(c, s3, ctx, k.sender, sender);
    ViewThen(s, s3, Promote(c, s3, ctx, k.sender).state, sender);
  }

  lemma DropElsewhere(s: State, k: Key, sender: string)
    requires k.sender != sender
    ensures SameView(s, s.(active := s.active - {k}, queued := s.queued - {k}), sender)
  {
    hide NoncesOf;
    NoncesElse(s.active, s.active - {k}, sender);
    NoncesElse(s.queued, s.queued - {k}, sender);
  }

  // ---- the sender's own inserts -----------------------------------------------------------------

  /** Anything but the missing nonce is refused or joins the queue beyond the gap. */
  lemma OwnInsert(c: Config, s: State, ctx: Ctx, item: Item)
    requires item.key.sender in s.infos && Blocked(s, item.key.sender)
    requires item.key.nonce != s.infos[item.key.sender].seqNo
    ensures Blocked(InsertItem(c, s, ctx, item).state, item.key.sender)
  {
    hide InsertActive, Enqueue, EventsOf;
    var k := item.key;
    assert k == Key(k.sender, k.nonce);
    OwnEnqueue(c, s, Entry(item, 0, QUEUED_TIER, Rank(0, 0)));
  }

  lemma OwnEnqueue(c: Config, s: State, e: Entry)
    requires var k := e.item.key;
             Blocked(s, k.sender) && k.nonce != s.infos[k.sender].seqNo
    ensures var k := e.item.key;
            k.nonce > s.infos[k.sender].seqNo ==> Blocked(Enqueue(c, s, e).state, k.sender)
  {
    var k := e.item.key;
    var q := Enqueue(c, s, e).state;
    assert q.queued == s.queued || Key(k.sender, k.nonce) in q.queued;
    forall n: nat | n in NoncesOf(q.queued, k.sender) && n != k.nonce ensures n in NoncesOf(s.queued, k.sender) {
      assert Key(k.sender, n) in q.queued;
    }
  }

  // ---- one step ---------------------------------------------------------------------------------

  /** The steps that can let a blocked sender go: an insert of the missing nonce, a removal of one of its
      transactions, a promotion pass that visits it. */
  ghost predicate Frees(s: State, step: Step, sender: string) {
    match step
    case DoInsert(ctx, tx, fetched) =>
      tx.signer.Some? && sender in s.infos && tx.signer.value == Key(sender, s.infos[sender].seqNo)
    case DoRemove(tx, reason) => tx.signer.Some? && tx.signer.value.sender == sender
    case DoPromote(ctx, seqs, activeOnly) => Visits(seqs, sender)
    case _ => false
  }

  lemma BlockedIdle(s: State, sender: string)
    requires Blocked(s, sender)
    ensures sender in s.infos && Idle(s, sender) && !IsEmpty(s, sender)
  {
  }

  lemma {:induction false} CleanupAllBlocked(s: State, senders: seq<string>, sender: string)
    requires Blocked(s, sender)
    ensures Blocked(CleanupAll(s, senders), sender)
  {
    if senders != [] {
      var n := |senders| - 1;
      CleanupAllBlocked(s, senders[..n], sender);
      BlockedIdle(CleanupAll(s, senders[..n]), sender);
    }
  }

  lemma InsertStays(c: Config, s: State, ctx: Ctx, tx: Tx, fetched: Option<nat>, sender: string)
    requires Filed(s) && Blocked(s, sender)
    requires !(tx.signer.Some? && tx.signer.value == Key(sender, s.infos[sender].seqNo))
    ensures Blocked(Insert(c, s, ctx, tx, fetched).state, sender)
  {
    hide InsertItem, Blocked, SameView, Pools, Idle, IsEmpty;
    BlockedIdle(s, sender);
    if Routed(s, ctx, tx, fetched) {
      var x := tx.signer.value.sender;
      var s1 := if fetched.Some? then Register(s, x, fetched.value) else s;
      var ctx1 := ctx.(txBytes := InsertBytes(ctx, tx).value);
      var item := NewItem(ctx, tx);
      if x == sender {
        OwnInsert(c, s, ctx1, item);
      } else {
        RegisterElsewhere(s, x, fetched, sender);
        InsertElsewhere(c, s1, ctx1, item, sender);
        ViewThen(s, s1, InsertItem(c, s1, ctx1, item).state, sender);
        ViewBlocked(s, InsertItem(c, s1, ctx1, item).state, sender);
      }
    }
  }

  lemma RegisterElsewhere(s: State, x: string, fetched: Option<nat>, sender: string)
    requires x != sender && Filed(s) && Idle(s, sender)
    ensures var s1 := if fetched.Some? then Register(s, x, fetched.value) else s;
            SameView(s, s1, sender) && Filed(s1) && Idle(s1, sender)
  {
  }

  lemma StaysBlocked(c: Config, s: State, step: Step, sender: string)
    requires Filed(s) && Blocked(s, sender) && !Frees(s, step, sender) && !Inspects(step, sender)
    ensures Blocked(Apply(c, s, step).state, sender)
  {
    hide Insert, RemoveByReason, PromoteSenders, CleanupAll, CleanSenders, EventsOf, Blocked, SameView, Visits, Pools;
    hide IsEmpty;
    BlockedIdle(s, sender);
    match step
    case DoInsert(ctx, tx, fetched) => InsertStays(c, s, ctx, tx, fetched, sender);
    case DoRemove(tx, reason) =>
      if tx.signer.Some? {
        var k := tx.signer.value;
        var onChain := if reason == CommittedInBlock then Some(k.nonce + 1) else None;
        RemoveElsewhere(c, s, k, reason, onChain, sender);
        ViewBlocked(s, RemoveByReason(c, s, k, reason, onChain).state, sender);
      }
    case DoPromote(ctx, seqs, activeOnly) =>
      PassElsewhere(c, s, ctx, seqs, sender);
      ViewBlocked(s, PromoteSenders(c, s, ctx, seqs).state, sender);
      CleanupAllBlocked(PromoteSenders(c, s, ctx, seqs).state, activeOnly, sender);
    case DoClean(seqs, now) =>
      CleanOthers(c, s, seqs, now, sender);
      ViewBlocked(s, CleanSenders(c, s, seqs, now).state, sender);
    case DoSweep => SweepBlocked(s, sender);
  }

  lemma SweepBlocked(s: State, sender: string)
    requires Blocked(s, sender)
    ensures Blocked(Sweep(s), sender)
  {
    BlockedIdle(s, sender);
  }

  // ---- runs -------------------------------------------------------------------------------------

  lemma RunFiled(c: Config, steps: seq<Step>)
    ensures Filed(After(c, EMPTY, steps))
  {
    hide After, Pools;
    RunPools(Any, c, steps);
  }

  /** Over any run: while a gap is counted, the sender is blocked after every step, as long as no step frees it. */
  lemma {:induction false} BlockedSince(c: Config, steps: seq<Step>, sender: string, t: int, i: nat, j: nat)
    requires DistinctCleans(steps) && SeenSince(c, steps, sender, t, i) && i < j <= |steps|
    requires forall l {:trigger steps[l]} :: i < l < j ==> !Frees(After(c, EMPTY, steps[..l]), steps[l], sender)
    ensures Blocked(After(c, EMPTY, steps[..j]), sender)
    decreases j
  {
    hide Apply, Blocked, Frees, Clock, DistinctSenders, SawGap, Inspects, Filed;
    var l := j - 1;
    var before := After(c, EMPTY, steps[..l]);
    assert steps[..j][..l] == steps[..l] && steps[..j][l] == steps[l];
    assert steps[l].DoClean? ==> DistinctSenders(steps[l].seqs);
    assert Clock(After(c, EMPTY, steps[..j]), sender) == Some(t);
    if l > i && !Inspects(steps[l], sender) {
      BlockedSince(c, steps, sender, t, i, l);
      RunFiled(c, steps[..l]);
      StaysBlocked(c, before, steps[l], sender);
    } else {
      if l == i {
        SawVisits(before, steps[l], sender);
      }
      StepClock(c, before, steps[l], sender, t);
    }
  }

  lemma SawVisits(s: State, step: Step, sender: string)
    requires SawGap(s, step, sender)
    ensures Inspects(step, sender)
  {
    hide BlockedAt;
  }
}
