/** A consumer that folds the app event stream (Inserted and Queued add, Removed deletes) knows the pooled
    transactions. */
module MempoolReplay {
  import opened Common
  import opened MempoolTypes
  import opened MempoolState
  import opened MempoolInvariant
  import opened MempoolAdmission
  import opened MempoolPromotion
  import opened MempoolSections
  import opened MempoolConservation
  import opened MempoolLaws
  import opened MempoolRuns

  ghost function Replay(b: set<Bytes>, events: seq<Event>): set<Bytes> {
    if events == [] then b
    else
      var before := Replay(b, events[..|events| - 1]);
      var e := events[|events| - 1];
      if e.kind == TxRemoved then before - {e.tx} else before + {e.tx}
  }

  ghost function BytesOf(es: seq<Entry>): (b: set<Bytes>)
    ensures forall x :: x in b <==> exists i :: 0 <= i < |es| && es[i].item.bytes == x
  {
    set i | 0 <= i < |es| :: es[i].item.bytes
  }

  /** The encodings of the pooled transactions. */
  ghost function Pooled(s: State): set<Bytes> {
    (set k {:trigger k in s.active} | k in s.active :: s.active[k].item.bytes) +
    (set k {:trigger k in s.queued} | k in s.queued :: s.queued[k].item.bytes)
  }

  ghost predicate Has(s: State, x: Item) { SlotItem(s, x.key) == Some(x) }

  lemma PooledHas(c: Config, s: State, b: Bytes) returns (x: Item)
    requires Inv(c, s) && b in Pooled(s)
    ensures Has(s, x) && x.bytes == b
  {
    if k :| k in s.active && s.active[k].item.bytes == b {
      x := s.active[k].item;
    } else {
      var k :| k in s.queued && s.queued[k].item.bytes == b;
      x := s.queued[k].item;
    }
  }

  lemma HasPooled(s: State, x: Item)
    requires Has(s, x)
    ensures x.bytes in Pooled(s)
  {
    if x.key in s.active {
      assert s.active[x.key].item.bytes in Pooled(s);
    } else {
      assert s.queued[x.key].item.bytes in Pooled(s);
    }
  }

  // ---- folding --------------------------------------------------------------------------------

  lemma {:induction false} ReplayJoin(b: set<Bytes>, es: seq<Event>, fs: seq<Event>)
    ensures Replay(b, es + fs) == Replay(Replay(b, es), fs)
  {
    if fs == [] {
      assert es + fs == es;
    } else {
      ReplayJoin(b, es, fs[..|fs| - 1]);
      assert (es + fs)[..|es + fs| - 1] == es + fs[..|fs| - 1];
    }
  }

  lemma BytesSnoc(es: seq<Entry>)
    requires es != []
    ensures BytesOf(es) == BytesOf(es[..|es| - 1]) + {es[|es| - 1].item.bytes}
  {
    var init := es[..|es| - 1];
    forall x ensures x in BytesOf(es) <==> x in BytesOf(init) + {es[|es| - 1].item.bytes} {
      if i :| 0 <= i < |es| && es[i].item.bytes == x {
        if i < |init| { assert init[i] == es[i]; }
      }
      if i :| 0 <= i < |init| && init[i].item.bytes == x {
        assert es[i] == init[i];
      }
    }
  }

  lemma {:induction false} ReplayOf(b: set<Bytes>, kind: EventType, es: seq<Entry>)
    ensures Replay(b, EventsOf(kind, es)) == if kind == TxRemoved then b - BytesOf(es) else b + BytesOf(es)
  {
    if es == [] {
      assert EventsOf(kind, es) == [];
    } else {
      var init := es[..|es| - 1];
      var evs := EventsOf(kind, es);
      assert evs[..|evs| - 1] == EventsOf(kind, init);
      ReplayOf(b, kind, init);
      BytesSnoc(es);
      hide BytesOf, EventsOf;
    }
  }

  // ---- one step -------------------------------------------------------------------------------

  /** A transaction's encoding determines its sender and nonce. */
  ghost predicate Named(keyOf: Bytes -> Key, s: State) {
    forall x {:trigger Has(s, x)} :: Has(s, x) ==> keyOf(x.bytes) == x.key
  }

  lemma RemovedItem(removed: seq<Entry>, i: nat)
    requires i < |removed|
    ensures Items(removed)[removed[i].item] > 0
  {
    assert Bare(removed)[i] == removed[i].item;
  }

  lemma ItemRemoved(removed: seq<Entry>, x: Item)
    requires Items(removed)[x] > 0
    ensures x.bytes in BytesOf(removed)
  {
    assert x in Bare(removed);
    var i :| 0 <= i < |removed| && Bare(removed)[i] == x;
    assert removed[i].item.bytes == x.bytes;
  }

  /** The balance of a step for one item. */
  lemma Balance(c: Config, s: State, step: Step, x: Item)
    requires Inv(c, s) && Safe(c, s, step)
    ensures var r := Apply(c, s, step);
            && (if Has(s, x) then 1 else 0) + multiset(r.added)[x] ==
                 (if Has(r.state, x) then 1 else 0) + Items(r.removed)[x] <= 1
  {
    var r := Apply(c, s, step);
    hide Inv, Apply, Pool, Items;
    StepInv(c, s, step);
    StepConserves(c, s, step);
    NoDuplicates(c, s, step, x);
    PoolIsSlots(c, s, x);
    PoolIsSlots(c, r.state, x);
    assert (Pool(s) + multiset(r.added))[x] == (Pool(r.state) + Items(r.removed))[x];
  }

  ghost predicate Adds(r: Result, adds: set<Bytes>) {
    forall i {:trigger r.added[i]} :: 0 <= i < |r.added| ==> r.added[i].bytes in adds
  }

  /** A pooled transaction that no event announces was pooled before, and no Removed event names its encoding. */
  lemma Untouched(c: Config, s: State, step: Step, keyOf: Bytes -> Key, adds: set<Bytes>, x: Item)
    requires Inv(c, s) && Safe(c, s, step) && Named(keyOf, s)
    requires var r := Apply(c, s, step);
             Adds(r, adds) && Has(r.state, x) && x.bytes !in adds
    ensures Has(s, x) && x.bytes !in BytesOf(Apply(c, s, step).removed)
  {
    var r := Apply(c, s, step);
    hide Inv, Apply, Items, Has;
    Balance(c, s, step, x);
    NotAdded(r, adds, x);
    forall i | 0 <= i < |r.removed| ensures r.removed[i].item.bytes != x.bytes {
      var y := r.removed[i].item;
      RemovedItem(r.removed, i);
      Balance(c, s, step, y);
      if y.bytes == x.bytes {
        NotAdded(r, adds, y);
        assert keyOf(x.bytes) == x.key == y.key;
        OnePerSlot(s, x, y);
      }
    }
  }

  lemma NotAdded(r: Result, adds: set<Bytes>, x: Item)
    requires Adds(r, adds) && x.bytes !in adds
    ensures multiset(r.added)[x] == 0
  {
    assert x !in r.added;
  }

  lemma OnePerSlot(s: State, x: Item, y: Item)
    requires Has(s, x) && Has(s, y) && x.key == y.key
    ensures x == y
  {
  }

  /** Deleting the removed encodings and adding the announced ones gives the new pool exactly when everything announced
      is still pooled. */
  lemma FoldIffPooled(c: Config, s: State, step: Step, keyOf: Bytes -> Key, adds: set<Bytes>)
    requires Inv(c, s) && Safe(c, s, step) && Named(keyOf, s) && Adds(Apply(c, s, step), adds)
    ensures var r := Apply(c, s, step);
            (Pooled(s) - BytesOf(r.removed)) + adds == Pooled(r.state) <==> adds <= Pooled(r.state)
  {
    var r := Apply(c, s, step);
    hide Inv, Apply, Items, Has, Adds, Pooled, Safe, BytesOf, Named;
    StepInv(c, s, step);
    if adds <= Pooled(r.state) {
      forall b | b in Pooled(r.state) ensures b in (Pooled(s) - BytesOf(r.removed)) + adds {
        if b !in adds {
          var x := PooledHas(c, r.state, b);
          Untouched(c, s, step, keyOf, adds, x);
          HasPooled(s, x);
        }
      }
      forall b | b in Pooled(s) && b !in BytesOf(r.removed) ensures b in Pooled(r.state) {
        var x := PooledHas(c, s, b);
        Balance(c, s, step, x);
        if Items(r.removed)[x] > 0 {
          ItemRemoved(r.removed, x);
        }
        HasPooled(r.state, x);
      }
    }
  }

  ghost function AddedBytes(events: seq<Event>): (b: set<Bytes>)
    ensures forall x :: x in b <==> exists i :: 0 <= i < |events| && events[i].tx == x
  {
    set i | 0 <= i < |events| :: events[i].tx
  }

  lemma AddedSnoc(events: seq<Event>)
    requires events != []
    ensures AddedBytes(events) == AddedBytes(events[..|events| - 1]) + {events[|events| - 1].tx}
  {
    var init := events[..|events| - 1];
    forall x ensures x in AddedBytes(events) <==> x in AddedBytes(init) + {events[|events| - 1].tx} {
      if i :| 0 <= i < |events| && events[i].tx == x {
        if i < |init| { assert init[i] == events[i]; }
      }
      if i :| 0 <= i < |init| && init[i].tx == x {
        assert events[i] == init[i];
      }
    }
  }

  lemma {:induction false} ReplayAdds(b: set<Bytes>, events: seq<Event>)
    requires forall i {:trigger events[i]} :: 0 <= i < |events| ==> events[i].kind != TxRemoved
    ensures Replay(b, events) == b + AddedBytes(events)
  {
    if events != [] {
      ReplayAdds(b, events[..|events| - 1]);
      AddedSnoc(events);
      hide AddedBytes;
    }
  }

  /** A section's events: first what it removed, then what it inserted, queued or promoted. */
  ghost predicate EventForm(r: Result) {
    && |r.removed| <= |r.events|
    && r.events[..|r.removed|] == EventsOf(TxRemoved, r.removed)
    && (forall i {:trigger r.events[i]} :: |r.removed| <= i < |r.events| ==> r.events[i].kind != TxRemoved)
  }

  /** The encodings a section announces as inserted, queued or promoted. */
  ghost function Announced(r: Result): set<Bytes>
    requires |r.removed| <= |r.events|
  {
    AddedBytes(r.events[|r.removed|..])
  }

  lemma FormReplays(b: set<Bytes>, r: Result)
    requires EventForm(r)
    ensures Replay(b, r.events) == (b - BytesOf(r.removed)) + Announced(r)
  {
    var rest := r.events[|r.removed|..];
    assert r.events == r.events[..|r.removed|] + rest;
    hide Replay, EventsOf, BytesOf;
    ReplayJoin(b, r.events[..|r.removed|], rest);
    ReplayOf(b, TxRemoved, r.removed);
    ReplayAdds(b - BytesOf(r.removed), rest);
  }

  lemma FormIntro(r: Result, rest: seq<Event>)
    requires r.events == EventsOf(TxRemoved, r.removed) + rest
    requires forall i {:trigger rest[i]} :: 0 <= i < |rest| ==> rest[i].kind != TxRemoved
    ensures EventForm(r) && r.events[|r.removed|..] == rest
  {
    hide EventsOf;
    assert r.events[|r.removed|..] == rest;
    forall i {:trigger r.events[i]} | |r.removed| <= i < |r.events| ensures r.events[i].kind != TxRemoved {
      assert r.events[i] == rest[i - |r.removed|];
    }
  }

  /** The events after the removals of an accepted active insert. */
  lemma InsertActiveForm(c: Config, s: State, ctx: Ctx, item: Item)
    requires item.key.sender in s.infos
    ensures var r := InsertActive(c, s, ctx, item);
            && EventForm(r)
            && (r.error != Ok ==> r.events == [])
            && (r.error == Ok ==>
                 var s1 := Tick(s);
                 var e := Stamp(c, s1, ctx, item);
                 var t := Entered(c, s1, Admit(c, s1, ctx.block, e, item.key in s.active), e);
                 r.events[|r.removed|..] ==
                   [Event(TxInserted, item.bytes)] + EventsOf(TxInserted, Promote(c, t, ctx, item.key.sender).promoted))
  {
    hide Stamp, Admit, MakeRoom, Promote, Occupants, EventsOf, EventForm;
    var s1 := Tick(s);
    var e := Stamp(c, s1, ctx, item);
    var r := InsertActive(c, s, ctx, item);
    StampItem(c, s1, ctx, item);
    if r.error != Ok {
      NoEvents(r);
    } else {
      var t := Entered(c, s1, Admit(c, s1, ctx.block, e, item.key in s.active), e);
      FormIntro3(r, item.bytes, Promote(c, t, ctx, item.key.sender).promoted);
    }
  }

  lemma NoEvents(r: Result)
    requires r.removed == [] && r.events == []
    ensures EventForm(r)
  {
  }

  lemma FormIntro3(r: Result, tx: Bytes, promoted: seq<Entry>)
    requires r.events == EventsOf(TxRemoved, r.removed) + [Event(TxInserted, tx)] + EventsOf(TxInserted, promoted)
    ensures EventForm(r) && r.events[|r.removed|..] == [Event(TxInserted, tx)] + EventsOf(TxInserted, promoted)
  {
    hide EventsOf;
    var rest := [Event(TxInserted, tx)] + EventsOf(TxInserted, promoted);
    assert r.events == EventsOf(TxRemoved, r.removed) + rest;
    FormIntro(r, rest);
  }

  lemma InsertItemForm(c: Config, s: State, ctx: Ctx, item: Item)
    requires item.key.sender in s.infos
    ensures EventForm(InsertItem(c, s, ctx, item))
  {
    hide InsertActive, Next, Enqueue, EventsOf, EventForm;
    var r := InsertItem(c, s, ctx, item);
    if item.key.nonce > Next(s, item.key.sender) {
      if r.error == Ok {
        FormIntro(r, [Event(TxQueued, item.bytes)]);
      } else {
        NoEvents(r);
      }
    } else if item.key.nonce < Next(s, item.key.sender) && item.key !in s.active && item.key !in s.queued {
      NoEvents(r);
    } else {
      InsertActiveForm(c, s, ctx, item);
    }
  }

  lemma StepForm(c: Config, s: State, step: Step)
    ensures EventForm(Apply(c, s, step))
  {
    var r := Apply(c, s, step);
    hide InsertItem, RemoveByReason, PromoteSenders, CleanupAll, CleanSenders, EventsOf, IsEmpty, EventForm;
    match step
    case DoInsert(ctx, tx, fetched) =>
      if Routed(s, ctx, tx, fetched) {
        var s1 := if fetched.Some? then Register(s, tx.signer.value.sender, fetched.value) else s;
        InsertItemForm(c, s1, ctx.(txBytes := InsertBytes(ctx, tx).value), NewItem(ctx, tx));
      } else {
        FormIntro(r, []);
      }
    case DoRemove(tx, reason) => FormIntro(r, []);
    case DoPromote(ctx, seqs, activeOnly) =>
      FormIntro(r, EventsOf(TxInserted, PromoteSenders(c, s, ctx, seqs).promoted));
    case DoClean(seqs, now) => FormIntro(r, []);
    case DoSweep => FormIntro(r, []);
  }

  // ---- what is announced stays ----------------------------------------------------------------

  lemma ActiveIsPooled(s: State, es: seq<Entry>)
    requires AllIn(es, s.active)
    ensures BytesOf(es) <= Pooled(s)
  {
    forall x | x in BytesOf(es) ensures x in Pooled(s) {
      var i :| 0 <= i < |es| && es[i].item.bytes == x;
      assert es[i].item.key in s.active;
    }
  }

  lemma AddedOf(kind: EventType, es: seq<Entry>)
    ensures AddedBytes(EventsOf(kind, es)) == BytesOf(es)
  {
    var evs := EventsOf(kind, es);
    forall x ensures x in AddedBytes(evs) <==> x in BytesOf(es) {
      if i :| 0 <= i < |evs| && evs[i].tx == x {
        assert es[i].item.bytes == x;
      }
      if i :| 0 <= i < |es| && es[i].item.bytes == x {
        assert evs[i].tx == x;
      }
    }
  }

  lemma AddedCons(e: Event, events: seq<Event>)
    ensures AddedBytes([e] + events) == {e.tx} + AddedBytes(events)
  {
    var all := [e] + events;
    forall x ensures x in AddedBytes(all) <==> x in {e.tx} + AddedBytes(events) {
      if i :| 0 <= i < |all| && all[i].tx == x {
        if i > 0 { assert events[i - 1] == all[i]; }
      }
      if i :| 0 <= i < |events| && events[i].tx == x {
        assert all[i + 1] == events[i];
      }
      assert all[0] == e;
    }
  }

  lemma AddedNone()
    ensures AddedBytes([]) == {}
  {
  }

  /** An accepted active insert announces the transaction and its promoted successors, and all of them are pooled. */
  lemma InsertActiveStays(c: Config, s: State, ctx: Ctx, item: Item)
    requires Inv(c, s) && item.key.sender in s.infos
    requires item.key in s.active || AtNext(s, item.key)
    requires SafeReplacement(c, s, ctx, item)
    ensures var r := InsertActive(c, s, ctx, item);
            && EventForm(r)
            && (r.error == Ok ==> item.bytes in Announced(r) && Announced(r) <= Pooled(r.state))
            && (r.error != Ok ==> Announced(r) == {})
  {
    hide Inv, Stamp, Admit, MakeRoom, Promote, Occupants, EventsOf, EventForm, AtNext, SafeReplacement, MovedRun;
    hide Pooled, BytesOf, AddedBytes;
    var r := InsertActive(c, s, ctx, item);
    InsertActiveForm(c, s, ctx, item);
    if r.error != Ok {
      AddedNone();
    } else {
      var s1 := Tick(s);
      var e := Stamp(c, s1, ctx, item);
      var t := Entered(c, s1, Admit(c, s1, ctx.block, e, item.key in s.active), e);
      StampItem(c, s1, ctx, item);
      InsertReady(c, s, ctx, item);
      SenderKept(c, s, ctx, item);
      PromotionMaximal(c, t, ctx, item.key.sender);
      RunStays(c, t, ctx, item.key.sender, e);
      PromotedIn(t, item.key.sender, Promote(c, t, ctx, item.key.sender));
      var promoted := Promote(c, t, ctx, item.key.sender).promoted;
      ActiveIsPooled(r.state, promoted);
      ActivePooled(r.state, e);
      AddedOf(TxInserted, promoted);
      AddedCons(Event(TxInserted, item.bytes), EventsOf(TxInserted, promoted));
    }
  }

  lemma PromotedIn(s: State, sender: string, p: Promotion)
    requires sender in s.infos && MovedRun(s, sender, p)
    ensures AllIn(p.promoted, p.state.active)
  {
  }

  lemma ActivePooled(s: State, e: Entry)
    requires e.item.key in s.active && s.active[e.item.key] == e
    ensures e.item.bytes in Pooled(s)
  {
  }

  lemma QueuedStays(c: Config, s: State, item: Item)
    ensures var r := InsertQueued(c, s, item);
            && EventForm(r)
            && (r.error == Ok ==> item.bytes in Announced(r) && Announced(r) <= Pooled(r.state))
            && (r.error != Ok ==> Announced(r) == {})
  {
    var r := InsertQueued(c, s, item);
    EnqueuedThere(c, s, Entry(item, 0, QUEUED_TIER, Rank(0, 0)));
    hide Enqueue, EventsOf, EventForm, AddedBytes;
    AddedNone();
    if r.error == Ok {
      FormIntro(r, [Event(TxQueued, item.bytes)]);
      assert [Event(TxQueued, item.bytes)] == [Event(TxQueued, item.bytes)] + [];
      AddedCons(Event(TxQueued, item.bytes), []);
      assert item.bytes in Pooled(r.state);
    } else {
      NoEvents(r);
    }
  }

  lemma EnqueuedThere(c: Config, s: State, e: Entry)
    ensures var q := Enqueue(c, s, e);
            q.error == Ok ==> e.item.key in q.state.queued && q.state.queued[e.item.key] == e
  {
  }

  lemma InsertItemStays(c: Config, s: State, ctx: Ctx, item: Item)
    requires Inv(c, s) && item.key.sender in s.infos && SafeReplacement(c, s, ctx, item)
    ensures var r := InsertItem(c, s, ctx, item);
            && EventForm(r)
            && (r.error == Ok ==> item.bytes in Announced(r) && Announced(r) <= Pooled(r.state))
            && (r.error != Ok ==> Announced(r) == {})
  {
    hide Inv, Next, SafeReplacement, InsertActive, InsertQueued, EventForm, Pooled, AddedBytes;
    var k := item.key;
    var r := InsertItem(c, s, ctx, item);
    AddedNone();
    if k.nonce > Next(s, k.sender) {
      QueuedStays(c, s, item);
    } else {
      if k.nonce < Next(s, k.sender) {
        BelowNext(c, s, k);
      }
      if k in s.active || AtNext(s, k) {
        InsertActiveStays(c, s, ctx, item);
      } else {
        NoEvents(r);
      }
    }
  }

  // ---- steps and runs -------------------------------------------------------------------------

  /** What a `PromoteQueued` pass promoted. */
  ghost function PassPromoted(c: Config, s: State, step: Step): seq<Entry> {
    if step.DoPromote? then PromoteSenders(c, s, step.ctx, step.seqs).promoted else []
  }

  lemma StepAnnounces(c: Config, s: State, step: Step)
    requires Inv(c, s) && Safe(c, s, step)
    ensures var r := Apply(c, s, step);
            && EventForm(r) && Adds(r, Announced(r))
            && (if step.DoPromote? then Announced(r) == BytesOf(PassPromoted(c, s, step))
                else Announced(r) <= Pooled(r.state))
  {
    hide Inv, EventForm, AddedBytes, BytesOf, Pooled, EventsOf, RemoveByReason, CleanSenders, PromoteSenders;
    hide CleanupAll, IsEmpty, InsertItem;
    var r := Apply(c, s, step);
    StepForm(c, s, step);
    AddedNone();
    match step
    case DoInsert(ctx, tx, fetched) =>
      if Routed(s, ctx, tx, fetched) {
        var sender := tx.signer.value.sender;
        var s1 := if fetched.Some? then Register(s, sender, fetched.value) else s;
        var item := NewItem(ctx, tx);
        if fetched.Some? {
          RegisterInv(c, s, sender, fetched.value);
        }
        InsertItemStays(c, s1, ctx.(txBytes := InsertBytes(ctx, tx).value), item);
        AcceptedItemBeats(c, s1, ctx.(txBytes := InsertBytes(ctx, tx).value), item);
      }
    case DoRemove(tx, reason) => assert r.events[|r.removed|..] == [];
    case DoPromote(ctx, seqs, activeOnly) =>
      var promoted := PromoteSenders(c, s, ctx, seqs).promoted;
      AddedOf(TxInserted, promoted);
      assert r.events[|r.removed|..] == EventsOf(TxInserted, promoted);
    case DoClean(seqs, now) => assert r.events[|r.removed|..] == [];
    case DoSweep =>
  }

  /** Everything the pass promoted is still pooled at its end. */
  ghost predicate PromotedKept(c: Config, s: State, step: Step) {
    BytesOf(PassPromoted(c, s, step)) <= Pooled(Apply(c, s, step).state)
  }

  /** Folding a step's events over the encodings pooled before gives those pooled after: always for `Insert`,
      `RemoveWithReason` and the phases of `cleanUpEntries`, and for `PromoteQueued` exactly when nothing promoted in
      the pass was dropped later in it. */
  lemma StepReplays(c: Config, s: State, step: Step, keyOf: Bytes -> Key)
    requires Inv(c, s) && Safe(c, s, step) && Named(keyOf, s)
    ensures var r := Apply(c, s, step);
            Replay(Pooled(s), r.events) == Pooled(r.state) <==> (step.DoPromote? ==> PromotedKept(c, s, step))
  {
    hide Inv, Apply, Safe, Named, EventsOf, Announced, Adds, Replay, Pooled, BytesOf, PassPromoted;
    StepAnnounces(c, s, step);
    var r := Apply(c, s, step);
    FormReplays(Pooled(s), r);
    FoldIffPooled(c, s, step, keyOf, Announced(r));
  }

  /** The transaction an insert step would store has the key its encoding names. */
  ghost predicate NamedStep(keyOf: Bytes -> Key, step: Step) {
    step.DoInsert? && step.tx.signer.Some? && InsertBytes(step.ctx, step.tx).Some? ==>
      keyOf(InsertBytes(step.ctx, step.tx).value) == step.tx.signer.value
  }

  lemma AddedNamed(c: Config, s: State, step: Step, keyOf: Bytes -> Key)
    requires NamedStep(keyOf, step) && Inv(c, s)
    ensures forall i {:trigger Apply(c, s, step).added[i]} :: 0 <= i < |Apply(c, s, step).added| ==>
              keyOf(Apply(c, s, step).added[i].bytes) == Apply(c, s, step).added[i].key
  {
    InsertAdds(c, s, step);
    hide Inv, Remove, PromoteQueued, Clean, Sweep, InsertItem, EventsOf;
    if step.DoInsert? {
      var ctx, tx, fetched := step.ctx, step.tx, step.fetched;
      if Routed(s, ctx, tx, fetched) {
        var sender := tx.signer.value.sender;
        var s1 := if fetched.Some? then Register(s, sender, fetched.value) else s;
        if fetched.Some? {
          RegisterInv(c, s, sender, fetched.value);
        }
        AcceptedItemBeats(c, s1, ctx.(txBytes := InsertBytes(ctx, tx).value), NewItem(ctx, tx));
      }
    }
  }

  lemma StepNamed(c: Config, s: State, step: Step, keyOf: Bytes -> Key)
    requires Inv(c, s) && Safe(c, s, step) && Named(keyOf, s) && NamedStep(keyOf, step)
    ensures Named(keyOf, Apply(c, s, step).state)
  {
    hide Inv, Apply, Safe, Items, Has, NamedStep;
    var r := Apply(c, s, step);
    AddedNamed(c, s, step, keyOf);
    forall x {:trigger Has(r.state, x)} | Has(r.state, x) ensures keyOf(x.bytes) == x.key {
      Balance(c, s, step, x);
      if !Has(s, x) {
        assert x in r.added;
        var i :| 0 <= i < |r.added| && r.added[i] == x;
      }
    }
  }

  ghost function Produced(c: Config, s: State, steps: seq<Step>): seq<Event> {
    if steps == [] then []
    else Produced(c, s, steps[..|steps| - 1]) + Apply(c, After(c, s, steps[..|steps| - 1]), steps[|steps| - 1]).events
  }

  ghost predicate NamedRun(keyOf: Bytes -> Key, steps: seq<Step>) {
    forall i {:trigger steps[i]} :: 0 <= i < |steps| ==> NamedStep(keyOf, steps[i])
  }

  ghost predicate KeptRun(c: Config, s: State, steps: seq<Step>) {
    steps != [] ==>
    && KeptRun(c, s, steps[..|steps| - 1])
    && (steps[|steps| - 1].DoPromote? ==> PromotedKept(c, After(c, s, steps[..|steps| - 1]), steps[|steps| - 1]))
  }

  /** Over a whole run, folding the event stream from nothing reproduces exactly the pooled transactions. */
  lemma {:induction false} RunReplays(c: Config, steps: seq<Step>, keyOf: Bytes -> Key)
    requires c.Valid() && SafeRun(c, EMPTY, steps) && NamedRun(keyOf, steps) && KeptRun(c, EMPTY, steps)
    ensures Named(keyOf, After(c, EMPTY, steps))
    ensures Replay({}, Produced(c, EMPTY, steps)) == Pooled(After(c, EMPTY, steps))
  {
    hide Inv, Apply, Safe, NamedStep, Named, Pooled, PromotedKept;
    if steps == [] {
      EmptyPool(keyOf);
    } else {
      var init := steps[..|steps| - 1];
      var last := steps[|steps| - 1];
      var s := After(c, EMPTY, init);
      assert forall i {:trigger init[i]} :: 0 <= i < |init| ==> init[i] == steps[i];
      RunInv(c, init);
      RunReplays(c, init, keyOf);
      StepNamed(c, s, last, keyOf);
      StepReplays(c, s, last, keyOf);
      ReplayJoin({}, Produced(c, EMPTY, init), Apply(c, s, last).events);
    }
  }

  lemma EmptyPool(keyOf: Bytes -> Key)
    ensures Named(keyOf, EMPTY) && Pooled(EMPTY) == {}
  {
  }
}
