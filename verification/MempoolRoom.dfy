/** When a `PromoteQueued` pass can be followed from its events: with an active slot for everything pooled nothing is
    evicted, and with a queue slot for everything pooled nothing evicted is dropped, so everything promoted is still
    there at the end. */
module MempoolRoom {
  import opened Common
  import opened MempoolTypes
  import opened MempoolState
  import opened MempoolInvariant
  import opened MempoolPreservation
  import opened MempoolPromotion
  import opened MempoolSections
  import opened MempoolConservation
  import opened MempoolLaws
  import opened MempoolRuns
  import opened MempoolReplay
  import opened MempoolSpace

  /** The active set has a slot for everything in the pool. */
  ghost predicate Roomy(c: Config, s: State) {
    c.maxTx <= 0 || |s.active| + |s.queued| <= c.maxTx
  }

  /** Known before the pass: it has at most one sender, or there is room for everything, active or queued. */
  ghost predicate Untroubled(c: Config, s: State, step: Step) {
    step.DoPromote? ==> |step.seqs| <= 1 || (DistinctSenders(step.seqs) && (Roomy(c, s) || Spacious(c, s)))
  }

  // ---- one turn -------------------------------------------------------------------------------

  lemma FreeSlot(c: Config, s: State, block: Option<BlockLimits>, e: Entry)
    requires c.maxTx <= 0 || |s.active| < c.maxTx
    ensures var adm := Admit(c, s, block, e, false);
            adm.Refused? || (adm.Free? && MakeRoom(c, s, adm) == Outcome(s, []))
  {
  }

  /** With room for all that is in hand, the promotion loop touches no other sender and does not grow the pool. */
  ghost predicate Quiet(s: State, t: State, sender: string, inHand: nat) {
    SameElsewhere(s.active, t.active, sender) && |t.active| + |t.queued| <= |s.active| + |s.queued| + inHand
  }

  lemma QuietEnter(s: State, e: Entry, t: State, sender: string, inHand: nat)
    requires e.item.key.sender == sender && Quiet(Activate(Tick(s), e), t, sender, inHand)
    ensures Quiet(s, t, sender, inHand + 1)
  {
    hide NoncesOf;
    SizePut(s.active, e.item.key, e);
    NoncesPut(s.active, e.item.key, e);
    SameElsewhereTransitive(s.active, Activate(Tick(s), e).active, t.active, sender);
  }

  lemma QuietRequeue(s: State, es: seq<Entry>, sender: string, n: nat)
    requires Consecutive(es, sender, n)
    ensures Quiet(s, Tick(s).(queued := Requeue(s.queued, es)), sender, |es|)
  {
    hide NoncesOf, Requeue;
    RequeueSize(s.queued, es, sender, n);
  }

  lemma {:induction false} RoomyLoop(c: Config, s: State, ctx: Ctx, sender: string, n: nat, es: seq<Entry>)
    requires Consecutive(es, sender, n)
    requires c.maxTx <= 0 || |s.active| + |es| <= c.maxTx
    ensures Quiet(s, PromoteAll(c, s, ctx, es).state, sender, |es|)
    decreases |es|
  {
    hide Stamp, Admit, MakeRoom, NoncesOf, Requeue, Quiet;
    if es == [] {
      QuietItself(s, sender);
    } else {
      var s1 := Tick(s);
      var e := Stamp(c, s1, ctx, es[0].item);
      StampItem(c, s1, ctx, es[0].item);
      assert es[0].item.key == Key(sender, n + 0);
      FreeSlot(c, s1, ctx.block, e);
      var rest := es[1..];
      assert forall i :: 0 <= i < |rest| ==> rest[i] == es[i + 1];
      if Admit(c, s1, ctx.block, e, false).Refused? {
        QuietRequeue(s, [e] + rest, sender, n);
      } else {
        var t := Activate(s1, e);
        SizePut(s1.active, e.item.key, e);
        RoomyLoop(c, t, ctx, sender, n + 1, rest);
        QuietEnter(s, e, PromoteAll(c, t, ctx, rest).state, sender, |rest|);
      }
    }
  }

  lemma RoomyPromote(c: Config, s: State, ctx: Ctx, sender: string)
    requires Inv(c, s) && Roomy(c, s) && sender in s.infos
    ensures Quiet(s, Promote(c, s, ctx, sender).state, sender, 0)
  {
    var n := Next(s, sender);
    var es := Chain(s.queued, sender, n);
    QueueFacts(c, s, sender);
    hide Inv, Next, Chain, PromoteAll, NoncesOf, WellKeyed;
    CollectShape(s.queued, sender, n);
    RoomyLoop(c, s.(queued := s.queued - KeysOf(es)), ctx, sender, n, es);
  }

  lemma StaleQuiet(s: State, sender: string, seqNo: nat)
    ensures Quiet(s, RemoveStale(SetSeq(s, sender, seqNo), sender, seqNo).state, sender, 0)
  {
    var t := RemoveStale(SetSeq(s, sender, seqNo), sender, seqNo).state;
    SubmapSize(t.active, s.active);
    SubmapSize(t.queued, s.queued);
    hide Run;
  }

  lemma QuietThen(s: State, t: State, u: State, sender: string)
    requires Quiet(s, t, sender, 0) && Quiet(t, u, sender, 0)
    ensures Quiet(s, u, sender, 0)
  {
    SameElsewhereTransitive(s.active, t.active, u.active, sender);
  }

  lemma QuietItself(s: State, sender: string)
    ensures Quiet(s, s, sender, 0)
  {
  }

  lemma PromotedSender(c: Config, s: State, sender: string, p: Promotion)
    requires Inv(c, s) && sender in s.infos && MovedRun(s, sender, p)
    ensures AllOf(p.promoted, sender)
  {
    hide Next;
    forall i {:trigger p.promoted[i]} | 0 <= i < |p.promoted| ensures p.promoted[i].item.key.sender == sender {
      assert Some(p.promoted[i].item) == ItemAt(s.queued, Key(sender, Next(s, sender) + i));
    }
  }

  /** What a turn promoted is active when it ends, and belongs to its sender. */
  lemma TurnKeeps(c: Config, s: State, ctx: Ctx, sender: string, seqNo: nat)
    requires Inv(c, s)
    ensures var p := PromoteSender(c, s, ctx, sender, seqNo);
            AllIn(p.promoted, p.state.active) && AllOf(p.promoted, sender)
  {
    hide Inv, SetSeq, RemoveStale, Promote, IsEmpty, MovedRun, Drained;
    if sender in s.infos {
      var t := RemoveStale(SetSeq(s, sender, seqNo), sender, seqNo).state;
      StaleInv(c, s, sender, seqNo);
      PromotionMaximal(c, t, ctx, sender);
      PromotedSender(c, t, sender, Promote(c, t, ctx, sender));
      PromotedIn(t, sender, Promote(c, t, ctx, sender));
    }
  }

  /** With room, no other sender is touched. */
  lemma RoomyTurn(c: Config, s: State, ctx: Ctx, sender: string, seqNo: nat)
    requires Inv(c, s) && Roomy(c, s)
    ensures Quiet(s, PromoteSender(c, s, ctx, sender, seqNo).state, sender, 0)
  {
    hide Inv, SetSeq, RemoveStale, Promote, IsEmpty, Quiet, Roomy;
    if sender in s.infos {
      var t := RemoveStale(SetSeq(s, sender, seqNo), sender, seqNo).state;
      var p := Promote(c, t, ctx, sender);
      StaleInv(c, s, sender, seqNo);
      StaleQuiet(s, sender, seqNo);
      StillRoomy(c, s, t, sender);
      RoomyPromote(c, t, ctx, sender);
      QuietThen(s, t, p.state, sender);
      SameContents(s, p.state, Cleanup(p.state, sender), sender);
    } else {
      QuietItself(s, sender);
    }
  }

  lemma StillRoomy(c: Config, s: State, t: State, sender: string)
    requires Roomy(c, s) && Quiet(s, t, sender, 0)
    ensures Roomy(c, t)
  {
  }

  lemma SameContents(s: State, t: State, u: State, sender: string)
    requires u.active == t.active && u.queued == t.queued
    ensures Quiet(s, t, sender, 0) ==> Quiet(s, u, sender, 0)
  {
  }

  // ---- the pass -------------------------------------------------------------------------------

  ghost predicate Visited(es: seq<Entry>, seqs: seq<(string, nat)>) {
    forall i {:trigger es[i]} :: 0 <= i < |es| ==> Visits(seqs, es[i].item.key.sender)
  }

  /** Another sender's turn leaves promoted entries where they are. */
  lemma StillIn(es: seq<Entry>, more: seq<Entry>, init: seq<(string, nat)>, s: State, t: State, sender: string)
    requires AllIn(es, s.active) && Visited(es, init) && (forall j :: 0 <= j < |init| ==> init[j].0 != sender)
    requires SameElsewhere(s.active, t.active, sender) && AllIn(more, t.active)
    ensures AllIn(es + more, t.active)
  {
    forall i {:trigger (es + more)[i]} | 0 <= i < |es + more|
      ensures var e := (es + more)[i]; e.item.key in t.active && t.active[e.item.key] == e
    {
      if i < |es| {
        assert (es + more)[i] == es[i];
        assert es[i].item.key in s.active;
      } else {
        assert (es + more)[i] == more[i - |es|];
      }
    }
  }

  lemma VisitedMore(es: seq<Entry>, more: seq<Entry>, seqs: seq<(string, nat)>)
    requires seqs != [] && Visited(es, seqs[..|seqs| - 1])
    requires AllOf(more, seqs[|seqs| - 1].0)
    ensures Visited(es + more, seqs)
  {
    var all := es + more;
    forall i {:trigger all[i]} | 0 <= i < |all| ensures Visits(seqs, all[i].item.key.sender) {
      if i < |es| {
        assert all[i] == es[i];
        var init := seqs[..|seqs| - 1];
        var j: nat :| TurnAt(init, es[i].item.key.sender, j);
        assert TurnAt(seqs, all[i].item.key.sender, j);
      } else {
        assert all[i] == more[i - |es|];
        assert TurnAt(seqs, all[i].item.key.sender, |seqs| - 1);
      }
    }
  }

  lemma {:induction false} RoomyPass(c: Config, s: State, ctx: Ctx, seqs: seq<(string, nat)>)
    requires Inv(c, s) && Roomy(c, s) && DistinctSenders(seqs)
    ensures var p := PromoteSenders(c, s, ctx, seqs);
            Inv(c, p.state) && Roomy(c, p.state) && AllIn(p.promoted, p.state.active) && Visited(p.promoted, seqs)
  {
    hide Inv, PromoteSender, AllIn, AllOf, Visited, Roomy;
    if seqs == [] {
      NothingIn(s.active, seqs);
      assert PromoteSenders(c, s, ctx, seqs) == Promotion(s, [], []);
    } else {
      var init := seqs[..|seqs| - 1];
      var (sender, seqNo) := seqs[|seqs| - 1];
      RoomyPass(c, s, ctx, init);
      var before := PromoteSenders(c, s, ctx, init);
      var last := PromoteSender(c, before.state, ctx, sender, seqNo);
      TurnKeeps(c, before.state, ctx, sender, seqNo);
      RoomyTurn(c, before.state, ctx, sender, seqNo);
      PromoteSenderInv(c, before.state, ctx, sender, seqNo);
      StillRoomy(c, before.state, last.state, sender);
      StillIn(before.promoted, last.promoted, init, before.state, last.state, sender);
      VisitedMore(before.promoted, last.promoted, seqs);
      assert PromoteSenders(c, s, ctx, seqs).state == last.state;
      assert PromoteSenders(c, s, ctx, seqs).promoted == before.promoted + last.promoted;
    }
  }

  lemma NothingIn(m: map<Key, Entry>, seqs: seq<(string, nat)>)
    ensures AllIn([], m) && Visited([], seqs)
  {
  }

  lemma SinglePass(c: Config, s: State, ctx: Ctx, seqs: seq<(string, nat)>)
    requires Inv(c, s) && |seqs| <= 1
    ensures var p := PromoteSenders(c, s, ctx, seqs);
            AllIn(p.promoted, p.state.active)
  {
    hide Inv, PromoteSender, AllIn;
    if seqs == [] {
      NothingIn(s.active, seqs);
    } else {
      assert seqs[..0] == [];
      TurnKeeps(c, s, ctx, seqs[0].0, seqs[0].1);
      var p := PromoteSender(c, s, ctx, seqs[0].0, seqs[0].1);
      assert [] + p.promoted == p.promoted;
    }
  }

  // ---- the pass, with space in the queues -------------------------------------------------------

  ghost predicate AllHeld(es: seq<Entry>, s: State) {
    forall i {:trigger es[i]} :: 0 <= i < |es| ==> Has(s, es[i].item)
  }

  lemma ActiveHeld(es: seq<Entry>, s: State)
    requires AllIn(es, s.active)
    ensures AllHeld(es, s)
  {
  }

  lemma HeldMore(es: seq<Entry>, more: seq<Entry>, s: State)
    requires AllHeld(es, s) && AllHeld(more, s)
    ensures AllHeld(es + more, s)
  {
    hide Has;
    forall i {:trigger (es + more)[i]} | 0 <= i < |es + more| ensures Has(s, (es + more)[i].item) {
      assert (es + more)[i] == if i < |es| then es[i] else more[i - |es|];
    }
  }

  /** What is lost belongs to the sender, so nothing of another sender is. */
  lemma OthersHeld(c: Config, s: State, t: State, removed: seq<Entry>, sender: string, x: Item)
    requires Inv(c, s) && Inv(c, t) && Loses(s, t, removed) && AllOf(removed, sender)
    requires Has(s, x) && x.key.sender != sender
    ensures Has(t, x)
  {
    hide Inv, Pool, Keys;
    PoolIsSlots(c, s, x);
    PoolIsSlots(c, t, x);
    NotItem(removed, sender, x);
    assert (Pool(t) + Items(removed))[x] == Pool(t)[x] + Items(removed)[x];
  }

  lemma NotItem(es: seq<Entry>, sender: string, x: Item)
    requires AllOf(es, sender) && x.key.sender != sender
    ensures Items(es)[x] == 0
  {
    assert x !in Bare(es);
  }

  lemma AllOthersHeld(c: Config, s: State, t: State, removed: seq<Entry>, es: seq<Entry>,
                      init: seq<(string, nat)>, sender: string)
    requires Inv(c, s) && Inv(c, t) && Loses(s, t, removed) && AllOf(removed, sender)
    requires AllHeld(es, s) && Visited(es, init) && (forall j :: 0 <= j < |init| ==> init[j].0 != sender)
    ensures AllHeld(es, t)
  {
    hide Inv, Loses, Has, AllOf;
    forall i {:trigger es[i]} | 0 <= i < |es| ensures Has(t, es[i].item) {
      assert Visits(init, es[i].item.key.sender);
      OthersHeld(c, s, t, removed, sender, es[i].item);
    }
  }

  lemma {:induction false} SpaciousPass(c: Config, s: State, ctx: Ctx, seqs: seq<(string, nat)>)
    requires Inv(c, s) && Spacious(c, s) && DistinctSenders(seqs)
    ensures var p := PromoteSenders(c, s, ctx, seqs);
            Inv(c, p.state) && Spacious(c, p.state) && AllHeld(p.promoted, p.state) && Visited(p.promoted, seqs)
  {
    hide Inv, PromoteSender, AllIn, AllHeld, Visited, Spacious, Loses, AllOf;
    if seqs == [] {
      NothingIn(s.active, seqs);
      assert PromoteSenders(c, s, ctx, seqs) == Promotion(s, [], []);
      ActiveHeld([], s);
    } else {
      var init := seqs[..|seqs| - 1];
      var (sender, seqNo) := seqs[|seqs| - 1];
      SpaciousPass(c, s, ctx, init);
      var before := PromoteSenders(c, s, ctx, init);
      var last := PromoteSender(c, before.state, ctx, sender, seqNo);
      TurnKeeps(c, before.state, ctx, sender, seqNo);
      SpaciousTurn(c, before.state, ctx, sender, seqNo);
      PromoteSenderInv(c, before.state, ctx, sender, seqNo);
      PromoteSenderConserves(c, before.state, ctx, sender, seqNo);
      AllOthersHeld(c, before.state, last.state, last.removed, before.promoted, init, sender);
      ActiveHeld(last.promoted, last.state);
      HeldMore(before.promoted, last.promoted, last.state);
      VisitedMore(before.promoted, last.promoted, seqs);
      assert PromoteSenders(c, s, ctx, seqs).state == last.state;
      assert PromoteSenders(c, s, ctx, seqs).promoted == before.promoted + last.promoted;
    }
  }

  lemma HeldIsPooled(s: State, es: seq<Entry>)
    requires AllHeld(es, s)
    ensures BytesOf(es) <= Pooled(s)
  {
    hide Has, Pooled;
    forall x | x in BytesOf(es) ensures x in Pooled(s) {
      var i :| 0 <= i < |es| && es[i].item.bytes == x;
      HasPooled(s, es[i].item);
    }
  }

  /** A pass over one sender, or one for which everything in the pool has an active slot or everything has a queue slot,
      keeps whatever it promotes. */
  lemma RoomKeepsPromoted(c: Config, s: State, step: Step)
    requires Inv(c, s) && step.DoPromote? && Untroubled(c, s, step)
    ensures PromotedKept(c, s, step)
  {
    hide Inv, PromoteSenders, AllIn, AllHeld, Roomy, Spacious, Pooled, BytesOf, EventsOf, CleanupAll, DistinctSenders;
    var p := PromoteSenders(c, s, step.ctx, step.seqs);
    if |step.seqs| <= 1 {
      SinglePass(c, s, step.ctx, step.seqs);
      ActiveHeld(p.promoted, p.state);
    } else if Roomy(c, s) {
      RoomyPass(c, s, step.ctx, step.seqs);
      ActiveHeld(p.promoted, p.state);
    } else {
      SpaciousPass(c, s, step.ctx, step.seqs);
    }
    HeldIsPooled(p.state, p.promoted);
    CleanupAllKeeps(p.state, step.activeOnly);
    SamePooled(p.state, CleanupAll(p.state, step.activeOnly));
  }

  lemma SamePooled(s: State, t: State)
    requires s.active == t.active && s.queued == t.queued
    ensures Pooled(s) == Pooled(t)
  {
  }

  // ---- runs -----------------------------------------------------------------------------------

  /** Every pass of the run is untroubled when it starts. */
  ghost predicate UntroubledRun(c: Config, s: State, steps: seq<Step>) {
    steps != [] ==>
      && UntroubledRun(c, s, steps[..|steps| - 1])
      && Untroubled(c, After(c, s, steps[..|steps| - 1]), steps[|steps| - 1])
  }

  lemma {:induction false} UntroubledIsKept(c: Config, steps: seq<Step>)
    requires c.Valid() && SafeRun(c, EMPTY, steps) && UntroubledRun(c, EMPTY, steps)
    ensures KeptRun(c, EMPTY, steps)
  {
    hide Inv, Apply, Safe, PromotedKept, Untroubled;
    if steps != [] {
      var init := steps[..|steps| - 1];
      UntroubledIsKept(c, init);
      RunInv(c, init);
      if steps[|steps| - 1].DoPromote? {
        RoomKeepsPromoted(c, After(c, EMPTY, init), steps[|steps| - 1]);
      }
    }
  }

  /** Over every run whose passes are untroubled, the event stream reproduces the pool. */
  lemma UntroubledRunReplays(c: Config, steps: seq<Step>, keyOf: Bytes -> Key)
    requires c.Valid() && SafeRun(c, EMPTY, steps) && NamedRun(keyOf, steps) && UntroubledRun(c, EMPTY, steps)
    ensures Replay({}, Produced(c, EMPTY, steps)) == Pooled(After(c, EMPTY, steps))
  {
    UntroubledIsKept(c, steps);
    RunReplays(c, steps, keyOf);
  }

  lemma {:induction false} UnlimitedIsUntroubled(c: Config, steps: seq<Step>)
    requires c.maxTx <= 0
    requires forall i {:trigger steps[i]} :: 0 <= i < |steps| && steps[i].DoPromote? ==> DistinctSenders(steps[i].seqs)
    ensures UntroubledRun(c, EMPTY, steps)
  {
    hide Apply, DistinctSenders;
    if steps != [] {
      var init := steps[..|steps| - 1];
      assert forall i {:trigger init[i]} :: 0 <= i < |init| ==> init[i] == steps[i];
      UnlimitedIsUntroubled(c, init);
      assert steps[|steps| - 1].DoPromote? ==> DistinctSenders(steps[|steps| - 1].seqs);
    }
  }

  /** Without a limit on the active set, the event stream of every run reproduces the pool. */
  lemma UnlimitedRunReplays(c: Config, steps: seq<Step>, keyOf: Bytes -> Key)
    requires c.Valid() && c.maxTx <= 0 && SafeRun(c, EMPTY, steps) && NamedRun(keyOf, steps)
    requires forall i {:trigger steps[i]} :: 0 <= i < |steps| && steps[i].DoPromote? ==> DistinctSenders(steps[i].seqs)
    ensures Replay({}, Produced(c, EMPTY, steps)) == Pooled(After(c, EMPTY, steps))
  {
    hide SafeRun, NamedRun, UntroubledRun, DistinctSenders;
    UnlimitedIsUntroubled(c, steps);
    UntroubledRunReplays(c, steps, keyOf);
  }
}
