/** What single operations of the pool promise beyond keeping its invariant. */
module MempoolLaws {
  import opened Common
  import opened MempoolTypes
  import opened MempoolState
  import opened MempoolInvariant
  import opened MempoolPreservation
  import opened MempoolAdmission
  import opened MempoolPromotion
  import opened MempoolSections

  ghost function ItemAt(m: map<Key, Entry>, k: Key): Option<Item> {
    if k in m then Some(m[k].item) else None
  }

  // ---- the promotion loop ---------------------------------------------------------------------

  /** The sender's entries of `m` are still there. */
  ghost predicate KeepsOwn(m: map<Key, Entry>, m': map<Key, Entry>, sender: string) {
    forall k {:trigger k in m} {:trigger k in m'} :: k in m && k.sender == sender ==> k in m' && m'[k] == m[k]
  }

  ghost predicate AllIn(es: seq<Entry>, m: map<Key, Entry>) {
    forall i {:trigger es[i]} :: 0 <= i < |es| ==> es[i].item.key in m && m[es[i].item.key] == es[i]
  }

  /** `ps` re-stamps a prefix of `es`. */
  ghost predicate Prefix(ps: seq<Entry>, es: seq<Entry>) {
    |ps| <= |es| && (forall i :: 0 <= i < |ps| ==> ps[i].item == es[i].item)
  }

  lemma PrefixCons(e: Entry, ps: seq<Entry>, es: seq<Entry>)
    requires es != [] && e.item == es[0].item && Prefix(ps, es[1..])
    ensures Prefix([e] + ps, es)
  {
  }

  lemma AllInCons(e: Entry, ps: seq<Entry>, m: map<Key, Entry>)
    requires AllIn(ps, m) && e.item.key in m && m[e.item.key] == e
    ensures AllIn([e] + ps, m)
  {
  }

  /** Entering a free slot of the sender keeps the sender's other entries. */
  lemma EnterKeepsOwn(c: Config, s: State, t: State, adm: Admission, e: Entry, sender: string)
    requires RoomMade(c, s, t, adm, sender) && e.item.key !in s.active && e.item.key.sender == sender
    ensures KeepsOwn(s.active, Activate(t, e).active, sender)
  {
    hide Inv;
  }

  lemma KeepsOwnThen(a: map<Key, Entry>, b: map<Key, Entry>, d: map<Key, Entry>, sender: string)
    requires KeepsOwn(a, b, sender) && KeepsOwn(b, d, sender)
    ensures KeepsOwn(a, d, sender)
  {
  }

  lemma HeadIsFree(c: Config, s: State, sender: string, es: seq<Entry>)
    requires Inv(c, s) && InHand(c, s, sender, es) && es != []
    ensures es[0].item.key == Key(sender, Next(s, sender))
    ensures es[0].item.key !in s.active && es[0].item.key !in s.queued
  {
    assert es[0].item.key == Key(sender, Next(s, sender) + 0);
    HandQueueable(c, s, sender, es, 0);
  }

  /** The promoted entries are a prefix of the collected ones; they and the sender's earlier run end up active. */
  lemma {:induction false} PromoteAllActivates(c: Config, s: State, ctx: Ctx, sender: string, es: seq<Entry>)
    requires Inv(c, s) && InHand(c, s, sender, es)
    ensures var p := PromoteAll(c, s, ctx, es);
            && Prefix(p.promoted, es) && AllIn(p.promoted, p.state.active)
            && KeepsOwn(s.active, p.state.active, sender)
            && sender in p.state.infos && Next(p.state, sender) == Next(s, sender) + |p.promoted|
    decreases |es|
  {
    hide Inv, Stamp, Admit, MakeRoom, RoomMade, Next, InHand, Prefix, AllIn, KeepsOwn;
    HandSender(c, s, sender, es);
    NothingPromoted(s, PromoteAll(c, s, ctx, es).state, sender, es);
    if es != [] {
      var s1 := Tick(s);
      TickInv(c, s);
      TickInHand(c, s, sender, es);
      NextAfterTick(s, sender);
      var e := Stamp(c, s1, ctx, es[0].item);
      StampItem(c, s1, ctx, es[0].item);
      var adm := Admit(c, s1, ctx.block, e, false);
      if !adm.Refused? {
        var t := MakeRoom(c, s1, adm).state;
        var s2 := Activate(t, e);
        HeadIsFree(c, s1, sender, es);
        PromoteOneInv(c, s1, ctx, sender, es);
        EnterKeepsOwn(c, s1, t, adm, e, sender);
        PromoteAllActivates(c, s2, ctx, sender, es[1..]);
        var rest := PromoteAll(c, s2, ctx, es[1..]);
        KeepsOwnThen(s1.active, s2.active, rest.state.active, sender);
        StaysIn(s2.active, rest.state.active, sender, e);
        AllInCons(e, rest.promoted, rest.state.active);
        PrefixCons(e, rest.promoted, es);
      }
    }
  }

  lemma StampItem(c: Config, s: State, ctx: Ctx, item: Item)
    ensures Stamp(c, s, ctx, item).item == item
  {
  }

  lemma HandSender(c: Config, s: State, sender: string, es: seq<Entry>)
    requires InHand(c, s, sender, es)
    ensures sender in s.infos
  {
  }

  lemma NothingPromoted(s: State, t: State, sender: string, es: seq<Entry>)
    requires sender in s.infos
    ensures Prefix([], es) && AllIn([], t.active)
    ensures t.active == s.active && t.infos == s.infos ==>
              KeepsOwn(s.active, t.active, sender) && Next(t, sender) == Next(s, sender)
  {
  }

  lemma StaysIn(m: map<Key, Entry>, m': map<Key, Entry>, sender: string, e: Entry)
    requires KeepsOwn(m, m', sender) && e.item.key in m && m[e.item.key] == e && e.item.key.sender == sender
    ensures e.item.key in m' && m'[e.item.key] == e
  {
  }

  /** Where the sender's slots stand in the queue after the loop: the promoted ones left, the others wait. */
  ghost predicate Waiting(q: map<Key, Entry>, q': map<Key, Entry>, sender: string, n: nat, es: seq<Entry>,
                          promoted: nat)
  {
    forall k: Key {:trigger ItemAt(q', k)} :: k.sender == sender ==>
      ItemAt(q', k) == if n + promoted <= k.nonce < n + |es| then Some(es[k.nonce - n].item) else ItemAt(q, k)
  }

  lemma NothingWaits(q: map<Key, Entry>, sender: string, n: nat)
    ensures Waiting(q, q, sender, n, [], 0)
  {
  }

  lemma RequeuedWaits(q: map<Key, Entry>, sender: string, n: nat, es: seq<Entry>, e: Entry)
    requires es != [] && e.item == es[0].item && Consecutive(es, sender, n)
    ensures Waiting(q, Requeue(q, [e] + es[1..]), sender, n, es, 0)
  {
    var es' := [e] + es[1..];
    assert Consecutive(es', sender, n) by {
      forall i | 0 <= i < |es'| ensures es'[i].item == es[i].item { }
    }
    RequeueShape(q, es', sender, n);
    hide Requeue;
    var q' := Requeue(q, es');
    forall k: Key | k.sender == sender
      ensures ItemAt(q', k) == if n <= k.nonce < n + |es| then Some(es[k.nonce - n].item) else ItemAt(q, k)
    {
      if n <= k.nonce < n + |es| {
        assert es'[k.nonce - n].item == es[k.nonce - n].item;
      } else {
        assert k !in KeysOf(es');
      }
    }
  }

  lemma WaitingShift(q: map<Key, Entry>, r: map<Key, Entry>, q': map<Key, Entry>, sender: string, n: nat,
                     es: seq<Entry>, promoted: nat)
    requires es != [] && SameOf(q, r, sender) && Waiting(r, q', sender, n + 1, es[1..], promoted)
    ensures Waiting(q, q', sender, n, es, promoted + 1)
  {
  }

  lemma RoomSameQueue(c: Config, s: State, t: State, adm: Admission, sender: string)
    requires RoomMade(c, s, t, adm, sender)
    ensures SameOf(s.queued, t.queued, sender)
  {
  }

  lemma HandConsecutive(c: Config, s: State, sender: string, es: seq<Entry>)
    requires InHand(c, s, sender, es)
    ensures sender in s.infos && Consecutive(es, sender, Next(s, sender))
  {
  }

  lemma {:induction false} PromoteAllWaits(c: Config, s: State, ctx: Ctx, sender: string, es: seq<Entry>)
    requires Inv(c, s) && InHand(c, s, sender, es)
    ensures sender in s.infos
    ensures var p := PromoteAll(c, s, ctx, es);
            Waiting(s.queued, p.state.queued, sender, Next(s, sender), es, |p.promoted|)
    decreases |es|
  {
    hide Inv, Stamp, Admit, MakeRoom, RoomMade, Next, InHand, Waiting, Consecutive, SameOf, Requeue;
    HandConsecutive(c, s, sender, es);
    NothingWaits(s.queued, sender, Next(s, sender));
    if es != [] {
      var s1 := Tick(s);
      TickInv(c, s);
      TickInHand(c, s, sender, es);
      NextAfterTick(s, sender);
      var e := Stamp(c, s1, ctx, es[0].item);
      StampItem(c, s1, ctx, es[0].item);
      var adm := Admit(c, s1, ctx.block, e, false);
      if adm.Refused? {
        RequeuedWaits(s1.queued, sender, Next(s, sender), es, e);
      } else {
        var t := MakeRoom(c, s1, adm).state;
        var s2 := Activate(t, e);
        PromoteOneInv(c, s1, ctx, sender, es);
        RoomSameQueue(c, s1, t, adm, sender);
        PromoteAllWaits(c, s2, ctx, sender, es[1..]);
        var rest := PromoteAll(c, s2, ctx, es[1..]);
        WaitingShift(s.queued, s2.queued, rest.state.queued, sender, Next(s, sender), es, |rest.promoted|);
      }
    }
  }

  /** The queued entry in slot `k` was refused by `canAcceptLocked`. */
  ghost predicate RefusedAt(c: Config, s: State, block: Option<BlockLimits>, k: Key) {
    k in s.queued && Admit(c, s, block, s.queued[k], false).Refused?
  }

  lemma RequeuedRefused(c: Config, s: State, block: Option<BlockLimits>, sender: string, n: nat, es: seq<Entry>,
                        e: Entry)
    requires es != [] && e.item == es[0].item && Consecutive(es, sender, n)
    requires Admit(c, s, block, e, false).Refused?
    ensures RefusedAt(c, s.(queued := Requeue(s.queued, [e] + es[1..])), block, es[0].item.key)
  {
    var es' := [e] + es[1..];
    assert Consecutive(es', sender, n) by {
      forall i | 0 <= i < |es'| ensures es'[i].item == es[i].item { }
    }
    RequeueShape(s.queued, es', sender, n);
    hide Requeue;
    assert es'[0] == e;
  }

  /** The loop stops early only at an entry that `canAcceptLocked` refuses. */
  lemma {:induction false} PromoteAllStops(c: Config, s: State, ctx: Ctx, sender: string, es: seq<Entry>)
    requires Inv(c, s) && InHand(c, s, sender, es)
    ensures var p := PromoteAll(c, s, ctx, es);
            |p.promoted| < |es| ==> RefusedAt(c, p.state, ctx.block, es[|p.promoted|].item.key)
    decreases |es|
  {
    hide Inv, Stamp, Admit, MakeRoom, RoomMade, Next, InHand, RefusedAt, Consecutive;
    HandConsecutive(c, s, sender, es);
    if es != [] {
      var s1 := Tick(s);
      TickInv(c, s);
      TickInHand(c, s, sender, es);
      var e := Stamp(c, s1, ctx, es[0].item);
      StampItem(c, s1, ctx, es[0].item);
      var adm := Admit(c, s1, ctx.block, e, false);
      if adm.Refused? {
        RequeuedRefused(c, s1, ctx.block, sender, Next(s, sender), es, e);
      } else {
        PromoteOneInv(c, s1, ctx, sender, es);
        PromoteAllStops(c, Activate(MakeRoom(c, s1, adm).state, e), ctx, sender, es[1..]);
      }
    }
  }

  /** The cursor moved over a queued run: its items became active in order, and the rest of the queue is as before. */
  ghost predicate MovedRun(s: State, sender: string, p: Promotion)
    requires sender in s.infos
  {
    var n := Next(s, sender);
    && sender in p.state.infos && Next(p.state, sender) == n + |p.promoted|
    && (forall i {:trigger p.promoted[i]} :: 0 <= i < |p.promoted| ==>
          Some(p.promoted[i].item) == ItemAt(s.queued, Key(sender, n + i)))
    && AllIn(p.promoted, p.state.active) && KeepsOwn(s.active, p.state.active, sender)
    && (forall k: Key {:trigger ItemAt(p.state.queued, k)} :: k.sender == sender ==>
          ItemAt(p.state.queued, k) == if k.nonce < n + |p.promoted| then None else ItemAt(s.queued, k))
  }

  /** Nothing waits at the cursor, or what waits there was refused. */
  ghost predicate Drained(c: Config, s: State, block: Option<BlockLimits>, sender: string)
    requires sender in s.infos
  {
    var k := Key(sender, Next(s, sender));
    k in s.queued ==> RefusedAt(c, s, block, k)
  }

  lemma CollectedAt(s: State, sender: string, n: nat, k: Key)
    requires WellKeyed(s.queued) && k.sender == sender
    ensures var es := Chain(s.queued, sender, n);
            && (n <= k.nonce < n + |es| ==> k in s.queued && es[k.nonce - n] == s.queued[k] && k in KeysOf(es))
            && (!(n <= k.nonce < n + |es|) ==> k !in KeysOf(es))
            && (k.nonce == n + |es| ==> k !in s.queued)
  {
    var es := Chain(s.queued, sender, n);
    ChainShape(s.queued, sender, n);
    hide Chain;
    if n <= k.nonce < n + |es| {
      assert es[k.nonce - n].item.key == k;
    }
  }

  /** Promotion is maximal and lossless: the promoted run is a prefix of the queue, everything else of the sender stays
      where it was, and the loop stops only at a gap or at a transaction that is refused. */
  lemma PromotionMaximal(c: Config, s: State, ctx: Ctx, sender: string)
    requires Inv(c, s) && sender in s.infos
    ensures MovedRun(s, sender, Promote(c, s, ctx, sender))
    ensures Drained(c, Promote(c, s, ctx, sender).state, ctx.block, sender)
  {
    hide Inv, Chain, Next, KeysOf, InHand, PromoteAll, AllIn, KeepsOwn, RefusedAt, Waiting;
    var n := Next(s, sender);
    var es := Chain(s.queued, sender, n);
    var t := s.(queued := s.queued - KeysOf(es));
    var p := PromoteAll(c, t, ctx, es);
    CollectInHand(c, s, sender);
    NothingPromoted(s, t, sender, es);
    PromoteAllActivates(c, t, ctx, sender, es);
    PromoteAllWaits(c, t, ctx, sender, es);
    PromoteAllStops(c, t, ctx, sender, es);
    PromotedWere(c, s, sender, n, p.promoted);
    QueueAfter(c, s, sender, n, p.state.queued, |p.promoted|);
    StopsAt(c, s, sender, n, p.state.queued, |p.promoted|);
  }

  lemma PromotedWere(c: Config, s: State, sender: string, n: nat, ps: seq<Entry>)
    requires Inv(c, s) && Prefix(ps, Chain(s.queued, sender, n))
    ensures forall i {:trigger ps[i]} :: 0 <= i < |ps| ==> Some(ps[i].item) == ItemAt(s.queued, Key(sender, n + i))
  {
    hide Inv, Chain, KeysOf, WellKeyed, NoncesOf;
    QueueFacts(c, s, sender);
    forall i {:trigger ps[i]} | 0 <= i < |ps| ensures Some(ps[i].item) == ItemAt(s.queued, Key(sender, n + i)) {
      CollectedAt(s, sender, n, Key(sender, n + i));
    }
  }

  lemma QueueAfter(c: Config, s: State, sender: string, n: nat, q: map<Key, Entry>, promoted: nat)
    requires Inv(c, s) && sender in s.infos && n == Next(s, sender) && promoted <= |Chain(s.queued, sender, n)|
    requires var es := Chain(s.queued, sender, n);
             Waiting(s.queued - KeysOf(es), q, sender, n, es, promoted)
    ensures forall k: Key {:trigger ItemAt(q, k)} :: k.sender == sender ==>
              ItemAt(q, k) == if k.nonce < n + promoted then None else ItemAt(s.queued, k)
  {
    hide Inv, Chain, KeysOf, Next, WellKeyed, NoncesOf;
    QueueFacts(c, s, sender);
    forall k: Key {:trigger ItemAt(q, k)} | k.sender == sender
      ensures ItemAt(q, k) == if k.nonce < n + promoted then None else ItemAt(s.queued, k)
    {
      CollectedAt(s, sender, n, k);
      BelowNextUnqueued(c, s, k);
    }
  }

  /** With everything collected promoted, the next slot is empty. */
  lemma StopsAt(c: Config, s: State, sender: string, n: nat, q: map<Key, Entry>, promoted: nat)
    requires Inv(c, s) && promoted <= |Chain(s.queued, sender, n)|
    requires forall k: Key {:trigger ItemAt(q, k)} :: k.sender == sender ==>
               ItemAt(q, k) == if k.nonce < n + promoted then None else ItemAt(s.queued, k)
    ensures var es := Chain(s.queued, sender, n);
            && (promoted == |es| ==> Key(sender, n + promoted) !in q)
            && (promoted < |es| ==> es[promoted].item.key == Key(sender, n + promoted))
  {
    hide Inv, Chain, KeysOf, WellKeyed, NoncesOf;
    var es := Chain(s.queued, sender, n);
    var k := Key(sender, n + promoted);
    QueueFacts(c, s, sender);
    CollectedAt(s, sender, n, k);
    ChainShape(s.queued, sender, n);
    assert ItemAt(q, k) == ItemAt(s.queued, k);
  }

  lemma BelowNextUnqueued(c: Config, s: State, k: Key)
    requires Inv(c, s) && k.sender in s.infos
    ensures k.nonce < Next(s, k.sender) ==> k !in s.queued
  {
    if k.nonce < Next(s, k.sender) {
      BelowNext(c, s, k);
    }
  }

  /** After a successful active insert the transaction is active, the sender's cursor has passed it, and nothing
      promotable is left waiting. */
  lemma InsertDrains(c: Config, s: State, ctx: Ctx, item: Item)
    requires Inv(c, s) && item.key.sender in s.infos && item.key.nonce <= Next(s, item.key.sender)
    requires SafeReplacement(c, s, ctx, item)
    ensures var r := InsertItem(c, s, ctx, item);
            r.error == Ok ==>
              && item.key.sender in r.state.infos
              && ItemAt(r.state.active, item.key) == Some(item)
              && Drained(c, r.state, ctx.block, item.key.sender)
  {
    hide Inv, Next, SafeReplacement, Drained, MovedRun, Stamp, Admit, MakeRoom, Promote, Occupants, EventsOf;
    var k := item.key;
    var s1 := Tick(s);
    var e := Stamp(c, s1, ctx, item);
    var adm := Admit(c, s1, ctx.block, e, k in s.active);
    if InsertItem(c, s, ctx, item).error == Ok {
      if k.nonce < Next(s, k.sender) {
        BelowNext(c, s, k);
      }
      StampItem(c, s1, ctx, item);
      InsertReady(c, s, ctx, item);
      SenderKept(c, s, ctx, item);
      var t := Entered(c, s1, adm, e);
      PromotionMaximal(c, t, ctx, k.sender);
      RunStays(c, t, ctx, k.sender, e);
    }
  }

  lemma RunStays(c: Config, s: State, ctx: Ctx, sender: string, e: Entry)
    requires sender in s.infos && e.item.key in s.active && s.active[e.item.key] == e && e.item.key.sender == sender
    requires MovedRun(s, sender, Promote(c, s, ctx, sender))
    ensures var t := Promote(c, s, ctx, sender).state;
            sender in t.infos && e.item.key in t.active && t.active[e.item.key] == e
  {
    hide Promote, Next, AllIn;
  }

  // ---- failure --------------------------------------------------------------------------------

  lemma FailedItemChangesNothing(c: Config, s: State, ctx: Ctx, item: Item)
    requires item.key.sender in s.infos
    ensures var r := InsertItem(c, s, ctx, item);
            r.error != Ok ==>
              && r.state.active == s.active && r.state.queued == s.queued && r.state.infos == s.infos
              && r.removed == [] && r.added == [] && r.events == []
              && s.order <= r.state.order <= s.order + 1
  {
    hide Next, Stamp, Admit, MakeRoom, Promote, Occupants, EventsOf, Enqueue;
  }

  /** A failed `Insert` changes no entry; it may have used an order number and left an empty sender record. */
  lemma FailedInsertChangesNothing(c: Config, s: State, ctx: Ctx, tx: Tx, fetched: Option<nat>)
    ensures var r := Insert(c, s, ctx, tx, fetched);
            r.error != Ok ==>
              && r.state.active == s.active && r.state.queued == s.queued
              && r.removed == [] && r.added == [] && r.events == []
              && s.order <= r.state.order <= s.order + 1
              && (forall a :: a in s.infos ==> a in r.state.infos && r.state.infos[a] == s.infos[a])
              && (forall a :: a in r.state.infos && a !in s.infos ==>
                    && tx.signer.Some? && fetched.Some? && a == tx.signer.value.sender
                    && r.state.infos[a] == Info(fetched.value, None))
  {
    hide InsertItem;
    if Routed(s, ctx, tx, fetched) {
      var s1 := if fetched.Some? then Register(s, tx.signer.value.sender, fetched.value) else s;
      FailedItemChangesNothing(c, s1, ctx.(txBytes := InsertBytes(ctx, tx).value), NewItem(ctx, tx));
    }
  }

  // ---- admission ------------------------------------------------------------------------------

  /** A transaction is admitted exactly when it fits a block and there is a free slot or some active transaction that it
      outranks. */
  lemma AdmitsExactly(c: Config, s: State, block: Option<BlockLimits>, e: Entry)
    requires Inv(c, s)
    ensures !Admit(c, s, block, e, false).Refused? <==>
              && Fits(block, e.item)
              && (c.maxTx <= 0 || |s.active| < c.maxTx ||
                  exists k :: k in s.active && Outranks(e.clamped, s.active[k].clamped))
  {
    if s.active != map[] {
      NonemptyHasLast(s);
      var last := Last(s.active);
      forall k | k in s.active && Outranks(e.clamped, s.active[k].clamped) ensures Outranks(e.clamped, last.clamped) {
        if k != last.item.key {
          assert Before(s.active[k], last);
        }
      }
    }
  }

  /** `Insert` calls a nonce stale exactly when it is below the cached on-chain sequence. */
  lemma StaleExactly(c: Config, s: State, ctx: Ctx, item: Item)
    requires Inv(c, s) && item.key.sender in s.infos
    ensures InsertItem(c, s, ctx, item).error == StaleSequence <==> item.key.nonce < s.infos[item.key.sender].seqNo
  {
    var k := item.key;
    NextIsRunEnd(s, k.sender);
    assert Key(k.sender, k.nonce) == k;
    if k.nonce < Next(s, k.sender) {
      BelowNext(c, s, k);
    }
    hide Inv, Next, Stamp, Admit, MakeRoom, Promote, Occupants, EventsOf;
    QueueErrors(c, s, Entry(item, 0, QUEUED_TIER, Rank(0, 0)));
  }

  lemma QueueErrors(c: Config, s: State, e: Entry)
    ensures Enqueue(c, s, e).error in {Ok, LowerPriority, MaxCapacity}
  {
  }

  // ---- removal --------------------------------------------------------------------------------

  /** The transaction in a (sender, nonce) slot, active or queued. */
  ghost function SlotItem(s: State, k: Key): Option<Item> {
    if k in s.active then Some(s.active[k].item) else ItemAt(s.queued, k)
  }

  /** Committing a transaction removes its sender's slots up to its nonce and touches no other. */
  lemma CommitExactly(c: Config, s: State, k: Key, j: Key)
    requires Inv(c, s) && k.sender in s.infos
    ensures var t := RemoveByReason(c, s, k, CommittedInBlock, Some(k.nonce + 1)).state;
            SlotItem(t, j) == if j.sender == k.sender && j.nonce <= k.nonce then None else SlotItem(s, j)
  {
    hide IsEmpty, Run, Inv, RemoveNonce;
    CommitDropsStale(s, k);
  }

  /** Rejecting an active transaction leaves its sender's run below it active, and the transaction itself leaves the
      pool. */
  lemma RejectCutsRun(c: Config, s: State, k: Key, n: nat)
    requires Inv(c, s) && k in s.active
    ensures var t := RemoveByReason(c, s, k, AnteRejectedInPrepare, None).state;
            && (Key(k.sender, n) in t.active <==> Key(k.sender, n) in s.active && n < k.nonce)
            && k !in t.queued
  {
    RejectedRun(c, s, k, n);
    hide Inv, Demote, RemoveNonce, IsEmpty;
  }

  lemma RejectedRun(c: Config, s: State, k: Key, n: nat)
    requires Inv(c, s) && k in s.active
    ensures k.sender in s.infos
    ensures var t := RemoveCore(c, s, k, AnteRejectedInPrepare).state;
            && (Key(k.sender, n) in t.active <==> Key(k.sender, n) in s.active && n < k.nonce)
            && k !in t.queued
  {
    hide Inv, Demote;
    Registers(c, s, k);
    SlotsDisjoint(c, s, k);
    DemotesBeyond(c, s, k);
    InCut(s.active, k, n);
  }

  lemma InCut(active: map<Key, Entry>, k: Key, n: nat)
    ensures Key(k.sender, n) in CutFrom(active, k.sender, k.nonce) <==> Key(k.sender, n) in active && n < k.nonce
  {
  }

  /** Without its head, the run beyond `k` is demoted: the active set is cut at `k`, and `k` is not queued. */
  lemma DemotesBeyond(c: Config, s: State, k: Key)
    requires k in s.active && k !in s.queued && WellKeyed(s.active - {k})
    ensures var t := Demote(c, s.(active := s.active - {k}), k.sender, k.nonce + 1).state;
            t.active == CutFrom(s.active, k.sender, k.nonce) && k !in t.queued
  {
    hide Run, EnqueueAll, MaxOf, NoncesOf, WellKeyed, CutFrom;
    var head := s.(active := s.active - {k});
    var a := NoncesOf(head.active, k.sender);
    if a == {} || k.nonce + 1 > MaxOf(a) {
      TailOf(s.active, k);
      CutAtTail(s.active, k);
    } else {
      var cut := head.(active := CutFrom(head.active, k.sender, k.nonce + 1));
      var es := Run(head.active, k.sender, k.nonce + 1, MaxOf(a) + 1);
      CutPast(s.active, k);
      RunBeyond(head.active, k, MaxOf(a) + 1);
      EnqueueAllTouchesQueue(c, cut, es);
      NeverQueued(c, cut, es, k);
    }
  }

  lemma Registers(c: Config, s: State, k: Key)
    requires Inv(c, s) && k in s.active
    ensures k.sender in s.infos && WellKeyed(s.active - {k})
  {
  }

  lemma TailOf(active: map<Key, Entry>, k: Key)
    requires k in active
    requires var a := NoncesOf(active - {k}, k.sender);
             a == {} || k.nonce + 1 > MaxOf(a)
    ensures forall n: nat {:trigger Key(k.sender, n) in active} :: Key(k.sender, n) in active ==> n <= k.nonce
  {
    hide MaxOf;
    forall n: nat {:trigger Key(k.sender, n) in active} | Key(k.sender, n) in active ensures n <= k.nonce {
      if n != k.nonce { assert Key(k.sender, n) in active - {k}; }
    }
  }

  ghost predicate NoneIs(es: seq<Entry>, k: Key) {
    forall i {:trigger es[i]} :: 0 <= i < |es| ==> es[i].item.key != k
  }

  lemma RunBeyond(active: map<Key, Entry>, k: Key, hi: nat)
    requires WellKeyed(active)
    ensures NoneIs(Run(active, k.sender, k.nonce + 1, hi), k)
  {
    hide Run;
    RunLists(active, k.sender, k.nonce + 1, hi);
  }

  lemma {:induction false} NeverQueued(c: Config, s: State, es: seq<Entry>, k: Key)
    requires k !in s.queued && NoneIs(es, k)
    ensures k !in EnqueueAll(c, s, es).state.queued
  {
    if es != [] {
      NeverQueued(c, s, es[..|es| - 1], k);
    }
  }

  // ---- acceptance -----------------------------------------------------------------------------

  lemma AcceptedItemBeats(c: Config, s: State, ctx: Ctx, item: Item)
    requires Inv(c, s) && item.key.sender in s.infos
    ensures var r := InsertItem(c, s, ctx, item);
            && r.added == (if r.error == Ok then [item] else [])
            && (r.error == Ok ==>
                 && (item.key in s.active ==> item.priority > s.active[item.key].item.priority)
                 && (item.key in s.queued ==> item.priority > s.queued[item.key].item.priority))
  {
    SlotsDisjoint(c, s, item.key);
    hide Inv, Next, Stamp, Admit, MakeRoom, Promote, Occupants, EventsOf, Enqueue;
    var k := item.key;
    if k.nonce > Next(s, k.sender) {
      FutureQueueable(c, s, k);
      EnqueueBeats(c, s, Entry(item, 0, QUEUED_TIER, Rank(0, 0)));
    }
  }

  lemma SlotsDisjoint(c: Config, s: State, k: Key)
    requires Inv(c, s)
    ensures !(k in s.active && k in s.queued)
  {
  }

  lemma EnqueueBeats(c: Config, s: State, e: Entry)
    ensures Enqueue(c, s, e).error == Ok && e.item.key in s.queued ==>
              e.item.priority > s.queued[e.item.key].item.priority
  {
  }

  /** An accepted transaction beats the priority of whatever held its slot, active or queued. */
  lemma AcceptedBeatsOccupant(c: Config, s: State, ctx: Ctx, tx: Tx, fetched: Option<nat>)
    requires Inv(c, s)
    ensures var r := Insert(c, s, ctx, tx, fetched);
            && (r.error != Ok ==> r.added == [])
            && (r.error == Ok ==>
                 && |r.added| == 1 && tx.signer.Some?
                 && r.added[0].key == tx.signer.value && r.added[0].priority == ctx.priority
                 && (tx.signer.value in s.active ==> ctx.priority > s.active[tx.signer.value].item.priority)
                 && (tx.signer.value in s.queued ==> ctx.priority > s.queued[tx.signer.value].item.priority))
  {
    hide InsertItem, Inv;
    if Routed(s, ctx, tx, fetched) {
      var s1 := if fetched.Some? then Register(s, tx.signer.value.sender, fetched.value) else s;
      if fetched.Some? {
        RegisterInv(c, s, tx.signer.value.sender, fetched.value);
      }
      AcceptedItemBeats(c, s1, ctx.(txBytes := InsertBytes(ctx, tx).value), NewItem(ctx, tx));
    }
  }

  // ---- demotion -------------------------------------------------------------------------------

  /** `low` is what a queue of `cap` slots keeps of `all`: its lowest numbers. */
  ghost predicate Lowest(low: set<nat>, all: set<nat>, cap: int) {
    && low <= all
    && |low| == (if |all| <= cap then |all| else cap)
    && (forall x, y {:trigger x in low, y in all} :: x in low && y in all && y !in low ==> x < y)
  }

  lemma SameSizeSame(low: set<nat>, all: set<nat>)
    requires low <= all && |low| >= |all|
    ensures low == all
  {
    forall x | x in all ensures x in low {
      if x !in low {
        SubsetSize(low + {x}, all);
      }
    }
  }

  lemma SwapSize(low: set<nat>, m: nat, n: nat)
    requires m in low && n !in low
    ensures |low - {m} + {n}| == |low|
  {
    assert |low - {m}| == |low| - 1;
  }

  /** One more number: it joins, displaces the highest, or stays out. */
  lemma LowestJoins(low: set<nat>, all: set<nat>, cap: int, n: nat)
    requires Lowest(low, all, cap) && n !in all && |low| < cap
    ensures Lowest(low + {n}, all + {n}, cap)
  {
    SameSizeSame(low, all);
  }

  lemma LowestStaysOut(low: set<nat>, all: set<nat>, cap: int, n: nat, m: nat)
    requires Lowest(low, all, cap) && n !in all && |low| >= cap
    requires m in low && (forall x :: x in low ==> x <= m) && n >= m
    ensures Lowest(low, all + {n}, cap)
  {
    SubsetSize(low, all);
    assert |all + {n}| == |all| + 1;
  }

  lemma LowestDisplaces(low: set<nat>, all: set<nat>, cap: int, n: nat, m: nat)
    requires Lowest(low, all, cap) && n !in all && |low| >= cap
    requires m in low && (forall x :: x in low ==> x <= m) && n < m
    ensures Lowest(low - {m} + {n}, all + {n}, cap)
  {
    SubsetSize(low, all);
    SwapSize(low, m, n);
    assert |all + {n}| == |all| + 1;
    var low' := low - {m} + {n};
    assert low' <= all + {n};
    forall x, y {:trigger x in low', y in all + {n}} | x in low' && y in all + {n} && y !in low' ensures x < y {
      if y != m {
        assert m < y;
      }
    }
  }

  ghost function NonceSet(es: seq<Entry>): (ns: set<nat>)
    ensures forall n :: n in ns <==> exists i :: 0 <= i < |es| && es[i].item.key.nonce == n
  {
    set i | 0 <= i < |es| :: es[i].item.key.nonce
  }

  lemma NonceSetOne(e: Entry)
    ensures NonceSet([e]) == {e.item.key.nonce}
    ensures NonceSet([]) == {}
  {
    assert [e][0] == e;
  }

  /** Enqueueing below the global limit keeps the lowest nonces and hands back exactly the others. */
  ghost predicate KeptLowest(c: Config, queued: map<Key, Entry>, queued': map<Key, Entry>, sender: string, n: nat,
                             all: set<nat>, displaced: seq<Entry>)
  {
    var mine' := NoncesOf(queued', sender);
    && Lowest(mine', all + {n}, c.maxQueuedPerSender) && mine' <= NoncesOf(queued, sender) + {n}
    && |queued'| <= |queued| + 1
    && NonceSet(displaced) == (NoncesOf(queued, sender) + {n}) - mine'
  }

  lemma EnqueueKeepsLowest(c: Config, s: State, e: Entry, all: set<nat>)
    requires c.Valid() && WellKeyed(s.queued) && |s.queued| < c.maxQueuedTotal
    requires Lowest(NoncesOf(s.queued, e.item.key.sender), all, c.maxQueuedPerSender) && e.item.key.nonce !in all
    ensures var q := Enqueue(c, s, e);
            KeptLowest(c, s.queued, q.state.queued, e.item.key.sender, e.item.key.nonce, all, Displaced(q, e))
  {
    hide MaxOf, NonceSet, Lowest, KeptLowest, NoncesOf, WellKeyed;
    var k := e.item.key;
    var mine := NoncesOf(s.queued, k.sender);
    NotQueued(s.queued, k, all, c.maxQueuedPerSender);
    if |mine| >= c.maxQueuedPerSender {
      assert mine != {};
      if k.nonce >= MaxOf(mine) {
        RefusalKeepsLowest(c, s.queued, e, all, MaxOf(mine));
        assert Displaced(Enqueue(c, s, e), e) == [e];
      } else {
        SwapKeepsLowest(c, s.queued, e, all, MaxOf(mine));
        assert Displaced(Enqueue(c, s, e), e) == [s.queued[Key(k.sender, MaxOf(mine))]];
      }
    } else {
      JoinKeepsLowest(c, s.queued, e, all);
      assert Displaced(Enqueue(c, s, e), e) == [];
    }
  }

  lemma NotQueued(queued: map<Key, Entry>, k: Key, all: set<nat>, cap: int)
    requires Lowest(NoncesOf(queued, k.sender), all, cap) && k.nonce !in all
    ensures k !in queued
  {
    assert Key(k.sender, k.nonce) == k;
  }

  lemma RefusalKeepsLowest(c: Config, queued: map<Key, Entry>, e: Entry, all: set<nat>, m: nat)
    requires Lowest(NoncesOf(queued, e.item.key.sender), all, c.maxQueuedPerSender) && e.item.key.nonce !in all
    requires var mine := NoncesOf(queued, e.item.key.sender);
             |mine| >= c.maxQueuedPerSender && m in mine && (forall x :: x in mine ==> x <= m) && e.item.key.nonce >= m
    ensures KeptLowest(c, queued, queued, e.item.key.sender, e.item.key.nonce, all, [e])
  {
    hide NonceSet, NoncesOf;
    var mine := NoncesOf(queued, e.item.key.sender);
    NonceSetOne(e);
    LowestStaysOut(mine, all, c.maxQueuedPerSender, e.item.key.nonce, m);
    hide Lowest;
    assert (mine + {e.item.key.nonce}) - mine == {e.item.key.nonce};
  }

  lemma JoinKeepsLowest(c: Config, queued: map<Key, Entry>, e: Entry, all: set<nat>)
    requires Lowest(NoncesOf(queued, e.item.key.sender), all, c.maxQueuedPerSender) && e.item.key.nonce !in all
    requires e.item.key !in queued && |NoncesOf(queued, e.item.key.sender)| < c.maxQueuedPerSender
    ensures KeptLowest(c, queued, queued[e.item.key := e], e.item.key.sender, e.item.key.nonce, all, [])
  {
    hide NonceSet, NoncesOf, Lowest;
    NonceSetOne(e);
    NoncesPut(queued, e.item.key, e);
    SizePut(queued, e.item.key, e);
    LowestJoins(NoncesOf(queued, e.item.key.sender), all, c.maxQueuedPerSender, e.item.key.nonce);
  }

  lemma SwapNonces(queued: map<Key, Entry>, high: Key, e: Entry)
    requires high in queued && high.sender == e.item.key.sender && e.item.key !in queued
    ensures var q := (queued - {high})[e.item.key := e];
            && NoncesOf(q, high.sender) == NoncesOf(queued, high.sender) - {high.nonce} + {e.item.key.nonce}
            && |q| == |queued|
  {
    hide NoncesOf;
    NoncesDrop(queued, high);
    NoncesPut(queued - {high}, e.item.key, e);
    SizeDrop(queued, high);
    SizePut(queued - {high}, e.item.key, e);
  }

  lemma SwapKeepsLowest(c: Config, queued: map<Key, Entry>, e: Entry, all: set<nat>, m: nat)
    requires WellKeyed(queued) && e.item.key !in queued
    requires Lowest(NoncesOf(queued, e.item.key.sender), all, c.maxQueuedPerSender) && e.item.key.nonce !in all
    requires var mine := NoncesOf(queued, e.item.key.sender);
             |mine| >= c.maxQueuedPerSender && m in mine && (forall x :: x in mine ==> x <= m) && e.item.key.nonce < m
    ensures var high := Key(e.item.key.sender, m);
            && high in queued
            && KeptLowest(c, queued, (queued - {high})[e.item.key := e], e.item.key.sender, e.item.key.nonce, all,
                          [queued[high]])
  {
    var n := e.item.key.nonce;
    var mine := NoncesOf(queued, e.item.key.sender);
    var high := Key(e.item.key.sender, m);
    assert n !in mine;
    hide NonceSet, NoncesOf, Lowest;
    SwapNonces(queued, high, e);
    LowestDisplaces(mine, all, c.maxQueuedPerSender, n, m);
    NonceSetOne(queued[high]);
    assert (mine + {n}) - (mine - {m} + {n}) == {m};
  }

  /** The demoted entries `es` enter the queue next to `all`, of which it holds the lowest. */
  ghost predicate Demotable(c: Config, s: State, sender: string, es: seq<Entry>) {
    && c.Valid() && WellKeyed(s.queued) && |s.queued| + |es| <= c.maxQueuedTotal
    && |NoncesOf(s.queued, sender)| <= c.maxQueuedPerSender
    && (forall i :: 0 <= i < |es| ==> es[i].item.key.sender == sender && es[i].item.key !in s.queued)
    && (forall i, j :: 0 <= i < j < |es| ==> es[i].item.key != es[j].item.key)
  }

  /** Of the sender's old queue and the nonces `extra`, the new queue holds the lowest and `removed` the others. */
  ghost predicate LeftLowest(c: Config, q: map<Key, Entry>, q': map<Key, Entry>, sender: string, extra: set<nat>,
                             removed: seq<Entry>)
  {
    var all := NoncesOf(q, sender) + extra;
    && WellKeyed(q')
    && Lowest(NoncesOf(q', sender), all, c.maxQueuedPerSender)
    && NonceSet(removed) == all - NoncesOf(q', sender)
  }

  lemma {:induction false} EnqueueAllKeepsLowest(c: Config, s: State, sender: string, es: seq<Entry>)
    requires Demotable(c, s, sender, es)
    ensures var o := EnqueueAll(c, s, es);
            && LeftLowest(c, s.queued, o.state.queued, sender, NonceSet(es), o.removed)
            && |o.state.queued| <= |s.queued| + |es|
  {
    hide Demotable, LeftLowest, NonceSet, NoncesOf, Enqueue, Displaced;
    if es == [] {
      LeftNothing(c, s, sender);
    } else {
      var init := es[..|es| - 1];
      var e := es[|es| - 1];
      DemotableInit(c, s, sender, es);
      EnqueueAllKeepsLowest(c, s, sender, init);
      DemotableLast(c, s, sender, es);
      DemoteOne(c, s.queued, EnqueueAll(c, s, init), sender, init, e);
      assert init + [e] == es;
    }
  }

  lemma LeftNothing(c: Config, s: State, sender: string)
    requires Demotable(c, s, sender, [])
    ensures LeftLowest(c, s.queued, s.queued, sender, NonceSet([]), [])
  {
    assert NoncesOf(s.queued, sender) + NonceSet([]) == NoncesOf(s.queued, sender);
  }

  lemma DemotableInit(c: Config, s: State, sender: string, es: seq<Entry>)
    requires Demotable(c, s, sender, es) && es != []
    ensures Demotable(c, s, sender, es[..|es| - 1])
  {
  }

  /** The last entry is new to everything before it. */
  lemma DemotableLast(c: Config, s: State, sender: string, es: seq<Entry>)
    requires Demotable(c, s, sender, es) && es != []
    ensures var e := es[|es| - 1];
            && c.Valid() && e.item.key.sender == sender && |s.queued| + |es| <= c.maxQueuedTotal
            && e.item.key.nonce !in NoncesOf(s.queued, sender) + NonceSet(es[..|es| - 1])
  {
    var init := es[..|es| - 1];
    var e := es[|es| - 1];
    forall i | 0 <= i < |init| ensures init[i].item.key.nonce != e.item.key.nonce {
      assert init[i] == es[i] && es[i].item.key.sender == e.item.key.sender;
      assert es[i].item.key != e.item.key;
    }
    assert e.item.key == Key(sender, e.item.key.nonce);
  }

  lemma DemoteOne(c: Config, queued: map<Key, Entry>, before: Outcome, sender: string, init: seq<Entry>, e: Entry)
    requires LeftLowest(c, queued, before.state.queued, sender, NonceSet(init), before.removed)
    requires c.Valid() && e.item.key.sender == sender && |before.state.queued| < c.maxQueuedTotal
    requires e.item.key.nonce !in NoncesOf(queued, sender) + NonceSet(init)
    ensures var q := Enqueue(c, before.state, AsQueued(e));
            && LeftLowest(c, queued, q.state.queued, sender, NonceSet(init + [e]),
                          before.removed + Displaced(q, AsQueued(e)))
            && |q.state.queued| <= |before.state.queued| + 1
  {
    hide Enqueue, NonceSet, NoncesOf, Displaced, Lowest, WellKeyed;
    var all := NoncesOf(queued, sender) + NonceSet(init);
    var q := Enqueue(c, before.state, AsQueued(e));
    EnqueueKeepsLowest(c, before.state, AsQueued(e), all);
    NonceSetJoin(init, [e]);
    NonceSetOne(e);
    NonceSetJoin(before.removed, Displaced(q, AsQueued(e)));
    EnqueueKeyed(c, before.state, AsQueued(e));
    DemoteSets(NoncesOf(before.state.queued, sender), NoncesOf(q.state.queued, sender), all, e.item.key.nonce,
               c.maxQueuedPerSender);
    assert NoncesOf(queued, sender) + NonceSet(init + [e]) == all + {e.item.key.nonce};
  }

  lemma EnqueueKeyed(c: Config, s: State, e: Entry)
    requires WellKeyed(s.queued)
    ensures WellKeyed(Enqueue(c, s, e).state.queued)
  {
  }

  lemma NonceSetJoin(a: seq<Entry>, b: seq<Entry>)
    ensures NonceSet(a + b) == NonceSet(a) + NonceSet(b)
  {
    forall n ensures n in NonceSet(a + b) <==> n in NonceSet(a) + NonceSet(b) {
      if i :| 0 <= i < |a| && a[i].item.key.nonce == n {
        assert (a + b)[i] == a[i];
      }
      if i :| 0 <= i < |b| && b[i].item.key.nonce == n {
        assert (a + b)[|a| + i] == b[i];
      }
    }
  }

  lemma DemoteSets(mine: set<nat>, mine': set<nat>, all: set<nat>, n: nat, cap: int)
    requires Lowest(mine, all, cap) && Lowest(mine', all + {n}, cap) && n !in all && mine' <= mine + {n}
    ensures (all - mine) + ((mine + {n}) - mine') == (all + {n}) - mine'
  {
  }

  ghost function Suffix(m: map<Key, Entry>, sender: string, start: nat): set<nat> {
    set n | n in NoncesOf(m, sender) && n >= start
  }

  lemma RunNonces(m: map<Key, Entry>, sender: string, start: nat)
    requires WellKeyed(m) && NoncesOf(m, sender) != {}
    ensures var es := Run(m, sender, start, MaxOf(NoncesOf(m, sender)) + 1);
            NonceSet(es) == Suffix(m, sender, start) && |es| == |Suffix(m, sender, start)|
  {
    var hi := MaxOf(NoncesOf(m, sender)) + 1;
    var es := Run(m, sender, start, hi);
    RunLists(m, sender, start, hi);
    hide Run, MaxOf;
    forall n ensures n in NonceSet(es) <==> n in Suffix(m, sender, start) {
      if n in Suffix(m, sender, start) {
        assert m[Key(sender, n)] in es;
      }
      if i :| 0 <= i < |es| && es[i].item.key.nonce == n {
        assert es[i].item.key == Key(sender, n);
      }
    }
    DistinctSize(es);
  }

  lemma {:induction false} DistinctSize(es: seq<Entry>)
    requires forall i, j :: 0 <= i < j < |es| ==> es[i].item.key.nonce < es[j].item.key.nonce
    ensures |NonceSet(es)| == |es|
  {
    hide NonceSet;
    if es == [] {
      NoNonces();
    } else {
      var init := es[..|es| - 1];
      var e := es[|es| - 1];
      DistinctSize(init);
      LastIsNew(es);
      NonceSetJoin(init, [e]);
      NonceSetOne(e);
      assert init + [e] == es;
      AddsOne(NonceSet(init), e.item.key.nonce);
    }
  }

  lemma NoNonces()
    ensures NonceSet([]) == {}
  {
  }

  lemma AddsOne(s: set<nat>, n: nat)
    requires n !in s
    ensures |s + {n}| == |s| + 1
  {
  }

  lemma LastIsNew(es: seq<Entry>)
    requires es != [] && forall i, j :: 0 <= i < j < |es| ==> es[i].item.key.nonce < es[j].item.key.nonce
    ensures es[|es| - 1].item.key.nonce !in NonceSet(es[..|es| - 1])
  {
    var init := es[..|es| - 1];
    forall i | 0 <= i < |init| ensures init[i].item.key.nonce != es[|es| - 1].item.key.nonce {
      assert init[i] == es[i];
    }
  }

  /** Demoting an active suffix while the global limit has room: the sender's queue becomes exactly the
      `maxQueuedPerSender` lowest nonces of the old queue and the suffix together, and exactly the others are handed
      back. */
  lemma DemotionKeepsLowest(c: Config, s: State, sender: string, start: nat)
    requires Inv(c, s) && |s.queued| + |Suffix(s.active, sender, start)| <= c.maxQueuedTotal
    ensures var o := Demote(c, s, sender, start);
            LeftLowest(c, s.queued, o.state.queued, sender, Suffix(s.active, sender, start), o.removed)
  {
    hide Inv, Run, MaxOf, Suffix, NonceSet, Demotable, EnqueueAll, LeftLowest, CutFrom, NoncesOf, WellKeyed;
    var a := NoncesOf(s.active, sender);
    if a == {} || start > MaxOf(a) {
      QueueFacts(c, s, sender);
      NothingDemoted(c, s, sender, start);
    } else {
      var t := s.(active := CutFrom(s.active, sender, start));
      var es := Run(s.active, sender, start, MaxOf(a) + 1);
      ActiveFacts(c, s);
      SuffixDemotable(c, s, sender, start);
      RunNonces(s.active, sender, start);
      EnqueueAllKeepsLowest(c, t, sender, es);
    }
  }

  lemma NothingDemoted(c: Config, s: State, sender: string, start: nat)
    requires NoncesOf(s.active, sender) == {} || start > MaxOf(NoncesOf(s.active, sender))
    requires |NoncesOf(s.queued, sender)| <= c.maxQueuedPerSender && WellKeyed(s.queued)
    ensures LeftLowest(c, s.queued, s.queued, sender, Suffix(s.active, sender, start), [])
  {
    hide MaxOf, NonceSet, Suffix, NoncesOf, Lowest, WellKeyed;
    var mine := NoncesOf(s.queued, sender);
    NoSuffix(s.active, sender, start);
    NoNonces();
    LowestSelf(mine, c.maxQueuedPerSender);
    assert mine + {} == mine;
  }

  lemma NoSuffix(m: map<Key, Entry>, sender: string, start: nat)
    requires NoncesOf(m, sender) == {} || start > MaxOf(NoncesOf(m, sender))
    ensures Suffix(m, sender, start) == {}
  {
    hide MaxOf;
  }

  lemma LowestSelf(ns: set<nat>, cap: int)
    requires |ns| <= cap
    ensures Lowest(ns, ns, cap)
  {
  }

  lemma ActiveFacts(c: Config, s: State)
    requires Inv(c, s)
    ensures c.Valid() && WellKeyed(s.active)
  {
  }

  lemma SuffixDemotable(c: Config, s: State, sender: string, start: nat)
    requires Inv(c, s) && |s.queued| + |Suffix(s.active, sender, start)| <= c.maxQueuedTotal
    requires NoncesOf(s.active, sender) != {}
    ensures Demotable(c, s.(active := CutFrom(s.active, sender, start)), sender,
                      Run(s.active, sender, start, MaxOf(NoncesOf(s.active, sender)) + 1))
  {
    hide Inv, Run, MaxOf, Suffix, NonceSet, CutFrom, NoncesOf, WellKeyed;
    var hi := MaxOf(NoncesOf(s.active, sender)) + 1;
    var es := Run(s.active, sender, start, hi);
    ActiveFacts(c, s);
    QueueFacts(c, s, sender);
    RunNonces(s.active, sender, start);
    RunLists(s.active, sender, start, hi);
    forall i | 0 <= i < |es| ensures es[i].item.key.sender == sender && es[i].item.key !in s.queued {
      SlotsDisjoint(c, s, es[i].item.key);
    }
    forall i, j | 0 <= i < j < |es| ensures es[i].item.key != es[j].item.key {
      assert es[i].item.key.nonce < es[j].item.key.nonce;
    }
  }

  // ---- the order of selection -----------------------------------------------------------------

  lemma EarlierNonceFirst(s: State, i: Key, j: Key)
    requires Keyed(s) && RanksFall(s.active)
    requires i in s.active && j in s.active && i.sender == j.sender && i.nonce < j.nonce
    ensures Before(s.active[i], s.active[j])
  {
    assert !Outranks(s.active[j].clamped, s.active[i].clamped);
  }

  /** What precedes position `j`: of the same sender, exactly the nonces from the sequence up to this one. */
  ghost predicate RunPrecedes(s: State, ix: seq<Entry>, j: nat)
    requires j < |ix|
  {
    var k := ix[j].item.key;
    && k.sender in s.infos && s.infos[k.sender].seqNo <= k.nonce
    && (forall i {:trigger ix[i]} :: 0 <= i < j && ix[i].item.key.sender == k.sender ==> ix[i].item.key.nonce < k.nonce)
    && (forall n: nat {:trigger Key(k.sender, n)} :: s.infos[k.sender].seqNo <= n < k.nonce ==>
          AppearsBefore(ix, j, Key(k.sender, n)))
  }

  ghost predicate AppearsBefore(ix: seq<Entry>, j: nat, k: Key)
    requires j <= |ix|
  {
    exists i :: 0 <= i < j && ix[i].item.key == k
  }

  lemma SelectedBefore(s: State, ix: seq<Entry>, i: nat, j: nat)
    requires Keyed(s) && RanksFall(s.active) && Indexes(ix, s.active) && i < j < |ix|
    requires ix[i].item.key.sender == ix[j].item.key.sender
    ensures ix[i].item.key.nonce < ix[j].item.key.nonce
  {
    assert ix[i] in ix && ix[j] in ix;
    BeforeTotal(ix[i], ix[j]);
    if ix[i].item.key.nonce > ix[j].item.key.nonce {
      EarlierNonceFirst(s, ix[j].item.key, ix[i].item.key);
    }
  }

  lemma ListedBefore(s: State, ix: seq<Entry>, j: nat, m: Key)
    requires Keyed(s) && RanksFall(s.active) && Indexes(ix, s.active) && j < |ix|
    requires m in s.active && m.sender == ix[j].item.key.sender && m.nonce < ix[j].item.key.nonce
    ensures AppearsBefore(ix, j, m)
  {
    assert ix[j] in ix && s.active[m] in ix;
    var i :| 0 <= i < |ix| && ix[i] == s.active[m];
    EarlierNonceFirst(s, m, ix[j].item.key);
    BeforeTotal(ix[i], ix[j]);
  }

  /** Although the index is ordered by global rank, the iterator lists every sender's transactions by strictly
      increasing nonce, starting at the cached on-chain sequence and without gaps. */
  lemma SelectOrder(c: Config, s: State, ix: seq<Entry>, j: nat)
    requires Inv(c, s) && Indexes(ix, s.active) && j < |ix|
    ensures RunPrecedes(s, ix, j)
  {
    var k := ix[j].item.key;
    assert ix[j] in ix;
    assert s.infos[k.sender].seqNo <= k.nonce;
    hide Indexes, AppearsBefore;
    forall i {:trigger ix[i]} | 0 <= i < j && ix[i].item.key.sender == k.sender ensures ix[i].item.key.nonce < k.nonce {
      SelectedBefore(s, ix, i, j);
    }
    forall n: nat {:trigger Key(k.sender, n)} | s.infos[k.sender].seqNo <= n < k.nonce
      ensures AppearsBefore(ix, j, Key(k.sender, n))
    {
      assert Key(k.sender, n) in s.active;
      ListedBefore(s, ix, j, Key(k.sender, n));
    }
  }
}
