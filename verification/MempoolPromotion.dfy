/** Promotion from the queue: what is collected, promoted and requeued, and that the invariant survives. */
module MempoolPromotion {
  import opened MempoolTypes
  import opened MempoolState
  import opened MempoolInvariant
  import opened MempoolPreservation
  import opened MempoolAdmission

  /** `es` carries the consecutive nonces n, n + 1, ... of one sender. */
  ghost predicate Consecutive(es: seq<Entry>, sender: string, n: nat) {
    forall i :: 0 <= i < |es| ==> es[i].item.key == Key(sender, n + i)
  }

  /** Collecting takes the maximal run of queued nonces that starts at `n`. */
  lemma {:induction false} ChainShape(queued: map<Key, Entry>, sender: string, n: nat)
    requires WellKeyed(queued)
    ensures var es := Chain(queued, sender, n);
            && Consecutive(es, sender, n)
            && (forall i :: 0 <= i < |es| ==> es[i].item.key in queued && queued[es[i].item.key] == es[i])
            && Key(sender, n + |es|) !in queued
    decreases |queued|
  {
    var k := Key(sender, n);
    if k in queued {
      var rest := Chain(queued - {k}, sender, n + 1);
      ChainShape(queued - {k}, sender, n + 1);
      var es := Chain(queued, sender, n);
      assert es == [queued[k]] + rest;
      forall i | 0 <= i < |es|
        ensures es[i].item.key == Key(sender, n + i) && es[i].item.key in queued && queued[es[i].item.key] == es[i]
      {
        if i > 0 { assert es[i] == rest[i - 1]; }
      }
    }
  }

  lemma MinusSnoc(m: map<Key, Entry>, ks: set<Key>, k: Key)
    ensures m - (ks + {k}) == (m - ks) - {k}
  {
  }

  lemma LastKeyIsNew(es: seq<Entry>, sender: string, n: nat)
    requires Consecutive(es, sender, n) && es != []
    ensures Consecutive(es[..|es| - 1], sender, n)
    ensures es[|es| - 1].item.key == Key(sender, n + |es| - 1)
    ensures es[|es| - 1].item.key !in KeysOf(es[..|es| - 1])
  {
  }

  lemma {:induction false} DropConsecutive(queued: map<Key, Entry>, es: seq<Entry>, sender: string, n: nat)
    requires Consecutive(es, sender, n)
    requires forall i :: 0 <= i < |es| ==> es[i].item.key in queued
    ensures |queued - KeysOf(es)| == |queued| - |es|
    ensures |NoncesOf(queued - KeysOf(es), sender)| == |NoncesOf(queued, sender)| - |es|
    decreases |es|
  {
    if es == [] {
      assert queued - KeysOf(es) == queued;
    } else {
      var init := es[..|es| - 1];
      var k := es[|es| - 1].item.key;
      LastKeyIsNew(es, sender, n);
      DropConsecutive(queued, init, sender, n);
      KeysOfSnoc(es);
      MinusSnoc(queued, KeysOf(init), k);
      hide NoncesOf, KeysOf, Consecutive;
      assert k in queued - KeysOf(init);
      SizeDrop(queued - KeysOf(init), k);
    }
  }

  lemma KeysOfSnoc(es: seq<Entry>)
    requires es != []
    ensures KeysOf(es) == KeysOf(es[..|es| - 1]) + {es[|es| - 1].item.key}
  {
    var init := es[..|es| - 1];
    forall k ensures k in KeysOf(es) <==> k in KeysOf(init) + {es[|es| - 1].item.key} {
      if k in KeysOf(es) {
        var i :| 0 <= i < |es| && es[i].item.key == k;
        if i < |init| { assert init[i].item.key == k; }
      }
      if k in KeysOf(init) {
        var i :| 0 <= i < |init| && init[i].item.key == k;
        assert es[i].item.key == k;
      }
    }
  }

  /** Requeueing adds exactly the given entries. */
  ghost predicate Requeued(queued: map<Key, Entry>, es: seq<Entry>, q: map<Key, Entry>) {
    && (forall k {:trigger k in q} :: k in q && k !in KeysOf(es) ==> k in queued && q[k] == queued[k])
    && (forall k {:trigger k in queued} :: k in queued ==> k in q)
    && (forall i :: 0 <= i < |es| ==> es[i].item.key in q && q[es[i].item.key] == es[i])
  }

  lemma {:induction false} RequeueShape(queued: map<Key, Entry>, es: seq<Entry>, sender: string, n: nat)
    requires Consecutive(es, sender, n)
    ensures Requeued(queued, es, Requeue(queued, es))
    decreases |es|
  {
    if es != [] {
      var init := es[..|es| - 1];
      var e := es[|es| - 1];
      LastKeyIsNew(es, sender, n);
      RequeueShape(queued, init, sender, n);
      KeysOfSnoc(es);
      var q := Requeue(queued, init);
      var q' := q[e.item.key := e];
      hide KeysOf, Requeue;
      forall i | 0 <= i < |es| ensures es[i].item.key in q' && q'[es[i].item.key] == es[i] {
        if i < |init| { assert init[i] == es[i]; }
      }
    }
  }

  lemma {:induction false} RequeueSize(queued: map<Key, Entry>, es: seq<Entry>, sender: string, n: nat)
    requires Consecutive(es, sender, n)
    ensures var q := Requeue(queued, es);
            && SameElsewhere(queued, q, sender)
            && |q| <= |queued| + |es|
            && |NoncesOf(q, sender)| <= |NoncesOf(queued, sender)| + |es|
    decreases |es|
  {
    if es != [] {
      var e := es[|es| - 1];
      var q := Requeue(queued, es[..|es| - 1]);
      LastKeyIsNew(es, sender, n);
      RequeueSize(queued, es[..|es| - 1], sender, n);
      NoncesPut(q, e.item.key, e);
      SizePut(q, e.item.key, e);
      hide NoncesOf, Consecutive, SameElsewhere;
      SameElsewhereTransitive(queued, q, q[e.item.key := e], sender);
    }
  }

  /** Entries in hand that may still be promoted or requeued without breaking a bound. */
  ghost predicate InHand(c: Config, s: State, sender: string, es: seq<Entry>) {
    && sender in s.infos
    && Consecutive(es, sender, Next(s, sender))
    && (forall i :: 0 <= i < |es| ==> es[i].item.key !in s.queued)
    && |NoncesOf(s.queued, sender)| + |es| <= c.maxQueuedPerSender
    && |s.queued| + |es| <= c.maxQueuedTotal + c.maxQueuedPerSender
  }

  lemma BeyondNextQueueable(c: Config, s: State, sender: string, n: nat)
    requires Inv(c, s) && sender in s.infos && n >= Next(s, sender)
    ensures Queueable(s, Key(sender, n))
  {
    NextIsRunEnd(s, sender);
    forall j {:trigger j in s.active} | j in s.active && j.sender == sender ensures j.nonce < n {
      assert Key(sender, j.nonce) in s.active;
    }
    assert Key(sender, n) !in s.active;
  }

  lemma QueuedIsQueueable(c: Config, s: State, k: Key)
    requires Inv(c, s) && k in s.queued
    ensures k.sender in s.infos && s.queued[k].item.key == k && Queueable(s, k)
  {
    QueuedAtLeastNext(s, k);
    hide Queueable, Next;
    BeyondNextQueueable(c, s, k.sender, k.nonce);
  }

  lemma RequeuedKeys(c: Config, s: State, sender: string, es: seq<Entry>, k: Key)
    requires Inv(c, s) && InHand(c, s, sender, es)
    requires k in Requeue(s.queued, es) && k.sender == sender
    ensures Requeue(s.queued, es)[k].item.key == k && Queueable(s, k)
  {
    hide Inv, Requeue, NoncesOf, Queueable, Next;
    RequeueShape(s.queued, es, sender, Next(s, sender));
    if i :| 0 <= i < |es| && es[i].item.key == k {
      HandQueueable(c, s, sender, es, i);
    } else {
      hide InHand;
      assert k !in KeysOf(es);
      QueuedIsQueueable(c, s, k);
    }
  }

  lemma HandQueueable(c: Config, s: State, sender: string, es: seq<Entry>, i: nat)
    requires Inv(c, s) && InHand(c, s, sender, es) && i < |es|
    ensures Queueable(s, es[i].item.key)
  {
    hide Inv, NoncesOf, Queueable, Next;
    BeyondNextQueueable(c, s, sender, Next(s, sender) + i);
  }

  lemma RequeueInv(c: Config, s: State, sender: string, es: seq<Entry>)
    requires Inv(c, s) && InHand(c, s, sender, es)
    ensures Inv(c, s.(queued := Requeue(s.queued, es)))
  {
    hide Inv, Requeue, Queueable, SameElsewhere, NoncesOf, Next;
    var q := Requeue(s.queued, es);
    RequeueSize(s.queued, es, sender, Next(s, sender));
    forall k {:trigger k in q} | k in q && k.sender == sender ensures q[k].item.key == k && Queueable(s, k) {
      RequeuedKeys(c, s, sender, es, k);
    }
    QueueChange(c, s, q, sender);
  }

  // ---- the promotion loop ---------------------------------------------------------------------

  lemma StampAtNext(c: Config, s: State, ctx: Ctx, item: Item)
    requires Inv(c, s) && AtNext(s, item.key)
    ensures EntryOk(c, s, Stamp(c, s, ctx, item)) && RankedLast(s.active, Stamp(c, s, ctx, item))
  {
    var e := Stamp(c, s, ctx, item);
    StampOk(c, s, ctx, item);
    ClampAtNext(s, item.key, Rank(Score(e.tier, item.priority), s.order));
  }

  /** Entering the active set after room was made. */
  lemma EnterInv(c: Config, s: State, t: State, adm: Admission, e: Entry)
    requires Inv(c, s) && AtNext(s, e.item.key) && e.item.key !in s.queued
    requires EntryOk(c, s, e) && RankedLast(s.active, e)
    requires RoomMade(c, s, t, adm, e.item.key.sender)
    ensures Inv(c, Activate(t, e))
    ensures Next(Activate(t, e), e.item.key.sender) == e.item.key.nonce + 1
    ensures Activate(t, e).infos == t.infos && Activate(t, e).queued == t.queued
  {
    var k := e.item.key;
    SameNext(s, t, k.sender);
    hide Inv, Next;
    assert k !in t.queued by { assert SameOf(s.queued, t.queued, k.sender); }
    assert RankedLast(t.active, e);
    ActivateInv(c, t, e);
  }

  /** One accepted promotion: the invariant holds again and the remaining entries are still in hand. */
  lemma PromoteOneInv(c: Config, s: State, ctx: Ctx, sender: string, es: seq<Entry>)
    requires Inv(c, s) && InHand(c, s, sender, es) && es != []
    ensures var e := Stamp(c, s, ctx, es[0].item);
            var adm := Admit(c, s, ctx.block, e, false);
            var t := MakeRoom(c, s, adm).state;
            !adm.Refused? ==>
              && RoomMade(c, s, t, adm, sender)
              && Inv(c, Activate(t, e)) && InHand(c, Activate(t, e), sender, es[1..])
              && Activate(t, e).infos == t.infos
              && Next(Activate(t, e), sender) == Next(s, sender) + 1
  {
    var e := Stamp(c, s, ctx, es[0].item);
    var adm := Admit(c, s, ctx.block, e, false);
    assert es[0].item.key == Key(sender, Next(s, sender) + 0);
    if !adm.Refused? {
      StampAtNext(c, s, ctx, es[0].item);
      hide Inv, Admit, EntryOk, RankedLast, Clamp;
      MakeRoomInv(c, s, ctx.block, e, Rank(Score(e.tier, e.item.priority), s.order));
      var t := MakeRoom(c, s, adm).state;
      EnterInv(c, s, t, adm, e);
      StillInHand(c, s, t, adm, e, sender, es);
    }
  }

  lemma StillInHand(c: Config, s: State, t: State, adm: Admission, e: Entry, sender: string, es: seq<Entry>)
    requires InHand(c, s, sender, es) && es != [] && e.item.key == es[0].item.key
    requires c.maxQueuedPerSender > 0
    requires RoomMade(c, s, t, adm, sender)
    requires Next(Activate(t, e), sender) == e.item.key.nonce + 1
    ensures InHand(c, Activate(t, e), sender, es[1..])
  {
    SameNonces(s.queued, t.queued, sender);
    hide Inv, Next, NoncesOf;
    var rest := es[1..];
    assert es[0].item.key == Key(sender, Next(s, sender) + 0);
    forall i | 0 <= i < |rest|
      ensures rest[i].item.key == Key(sender, Next(Activate(t, e), sender) + i) && rest[i].item.key !in t.queued
    {
      assert rest[i] == es[i + 1];
      assert SameOf(s.queued, t.queued, sender);
    }
  }

  lemma {:induction false} PromoteAllInv(c: Config, s: State, ctx: Ctx, sender: string, es: seq<Entry>)
    requires Inv(c, s) && InHand(c, s, sender, es)
    ensures var p := PromoteAll(c, s, ctx, es);
            && Inv(c, p.state)
            && sender in p.state.infos && p.state.infos[sender] == s.infos[sender]
    decreases |es|
  {
    if es != [] {
      var s1 := Tick(s);
      TickInv(c, s);
      TickInHand(c, s, sender, es);
      var e := Stamp(c, s1, ctx, es[0].item);
      var adm := Admit(c, s1, ctx.block, e, false);
      hide Inv, Admit, Stamp, MakeRoom;
      if adm.Refused? {
        RestampInHand(c, s1, sender, es, e);
        hide InHand;
        RequeueInv(c, s1, sender, [e] + es[1..]);
      } else {
        PromoteOneInv(c, s1, ctx, sender, es);
        hide InHand;
        PromoteAllInv(c, Activate(MakeRoom(c, s1, adm).state, e), ctx, sender, es[1..]);
      }
    }
  }

  lemma TickInHand(c: Config, s: State, sender: string, es: seq<Entry>)
    requires InHand(c, s, sender, es)
    ensures InHand(c, Tick(s), sender, es)
  {
  }

  /** Rewriting the rank fields of the first entry in hand. */
  lemma RestampInHand(c: Config, s: State, sender: string, es: seq<Entry>, e: Entry)
    requires InHand(c, s, sender, es) && es != [] && e.item == es[0].item
    ensures InHand(c, s, sender, [e] + es[1..])
  {
    hide Next, NoncesOf;
    var es' := [e] + es[1..];
    assert |es'| == |es|;
    forall i | 0 <= i < |es'| ensures es'[i].item == es[i].item {
    }
  }

  lemma CollectShape(queued: map<Key, Entry>, sender: string, n: nat)
    requires WellKeyed(queued)
    ensures var es := Chain(queued, sender, n);
            var rest := queued - KeysOf(es);
            && Consecutive(es, sender, n)
            && (forall i :: 0 <= i < |es| ==> es[i].item.key !in rest)
            && |rest| == |queued| - |es|
            && |NoncesOf(rest, sender)| == |NoncesOf(queued, sender)| - |es|
  {
    hide Chain, NoncesOf, WellKeyed;
    var es := Chain(queued, sender, n);
    ChainShape(queued, sender, n);
    DropConsecutive(queued, es, sender, n);
    forall i | 0 <= i < |es| ensures es[i].item.key in KeysOf(es) {
    }
  }

  lemma HandIntro(c: Config, s: State, sender: string, n: nat, es: seq<Entry>)
    requires sender in s.infos && Next(s, sender) == n && Consecutive(es, sender, n)
    requires forall i :: 0 <= i < |es| ==> es[i].item.key !in s.queued
    requires |NoncesOf(s.queued, sender)| + |es| <= c.maxQueuedPerSender
    requires |s.queued| + |es| <= c.maxQueuedTotal + c.maxQueuedPerSender
    ensures InHand(c, s, sender, es)
  {
    hide NoncesOf, Next, Consecutive;
  }

  lemma CollectInHand(c: Config, s: State, sender: string)
    requires Inv(c, s) && sender in s.infos
    ensures var es := Chain(s.queued, sender, Next(s, sender));
            var t := s.(queued := s.queued - KeysOf(es));
            Inv(c, t) && InHand(c, t, sender, es)
  {
    hide Inv, Chain, NoncesOf, KeysOf, Consecutive, WellKeyed, Next, InHand;
    var n := Next(s, sender);
    var es := Chain(s.queued, sender, n);
    var t := s.(queued := s.queued - KeysOf(es));
    NextIgnoresQueue(s, t.queued, sender);
    QueueFacts(c, s, sender);
    CollectShape(s.queued, sender, n);
    DropQueuedInv(c, s, KeysOf(es));
    HandIntro(c, t, sender, n, es);
  }

  lemma NextIgnoresQueue(s: State, queued: map<Key, Entry>, sender: string)
    requires sender in s.infos
    ensures Next(s.(queued := queued), sender) == Next(s, sender)
  {
    hide NoncesOf;
  }

  lemma QueueFacts(c: Config, s: State, sender: string)
    requires Inv(c, s)
    ensures |s.queued| <= c.maxQueuedTotal + c.maxQueuedPerSender
    ensures WellKeyed(s.queued) && |NoncesOf(s.queued, sender)| <= c.maxQueuedPerSender
  {
  }

  lemma PromoteInv(c: Config, s: State, ctx: Ctx, sender: string)
    requires Inv(c, s) && sender in s.infos
    ensures var p := Promote(c, s, ctx, sender);
            && Inv(c, p.state)
            && sender in p.state.infos && p.state.infos[sender] == s.infos[sender]
  {
    hide Inv, Chain, Next, KeysOf, PromoteAll, InHand;
    var es := Chain(s.queued, sender, Next(s, sender));
    CollectInHand(c, s, sender);
    PromoteAllInv(c, s.(queued := s.queued - KeysOf(es)), ctx, sender, es);
  }

  // ---- insertion ------------------------------------------------------------------------------

  /** The one thing `Insert` needs of its tiers: a transaction that will replace an active one must outscore the
      active entry following it. */
  predicate SafeReplacement(c: Config, s: State, ctx: Ctx, item: Item) {
    item.key in s.active && item.priority > s.active[item.key].item.priority ==>
      KeepsRank(s.active, item.key, Score(TierFrom(c.tiers, 0, ctx.(txBytes := item.bytes), item.tx), item.priority))
  }

  lemma MinusAbsent(m: map<Key, Entry>, k: Key)
    requires k !in m
    ensures m - {k} == m
  {
  }

  lemma MinusThenPut(m: map<Key, Entry>, k: Key, e: Entry)
    ensures (m - {k})[k := e] == m[k := e]
  {
  }

  /** The state after an active insert, before promotion. */
  ghost function Entered(c: Config, s: State, adm: Admission, e: Entry): State {
    var k := e.item.key;
    Activate(MakeRoom(c, s.(active := s.active - {k}, queued := s.queued - {k}), adm).state, e)
  }

  lemma ReplaceEntered(c: Config, s: State, ctx: Ctx, item: Item)
    requires Inv(c, s) && item.key in s.active
    requires item.priority > s.active[item.key].item.priority && SafeReplacement(c, s, ctx, item)
    ensures var s1 := Tick(s);
            var e := Stamp(c, s1, ctx, item);
            var adm := Admit(c, s1, ctx.block, e, true);
            && !adm.Evict?
            && (!adm.Refused? ==>
                  && Entered(c, s1, adm, e) == Activate(s1, e)
                  && Inv(c, Activate(s1, e)))
  {
    var s1 := Tick(s);
    var e := Stamp(c, s1, ctx, item);
    var adm := Admit(c, s1, ctx.block, e, true);
    TickInv(c, s);
    TickFresh(c, s);
    StampOk(c, s1, ctx, item);
    assert item.key !in s.queued;
    assert c.maxTx > 0 ==> |s.active| <= c.maxTx;
    hide Inv, Clamp, HasLast;
    ReplaceInv(c, s1, e);
    MinusAbsent(s1.queued, item.key);
    MinusThenPut(s1.active, item.key, e);
  }

  lemma AtNextNotActive(c: Config, s: State, k: Key)
    requires Inv(c, s) && AtNext(s, k)
    ensures k !in s.active
  {
    NextIsRunEnd(s, k.sender);
    assert Key(k.sender, k.nonce) !in s.active;
  }

  /** Admission looks only at the active set, so freeing the slot's queued entry first changes nothing. */
  lemma AppendSetup(c: Config, s: State, ctx: Ctx, item: Item)
    requires Inv(c, s) && AtNext(s, item.key)
    ensures var t := s.(queued := s.queued - {item.key});
            var e := Stamp(c, s, ctx, item);
            && Inv(c, t) && AtNext(t, item.key) && item.key !in t.queued
            && e.clamped == Clamp(t.active, item.key, Rank(Score(e.tier, item.priority), t.order))
            && Admit(c, t, ctx.block, e, false) == Admit(c, s, ctx.block, e, false)
            && EntryOk(c, t, e) && RankedLast(t.active, e)
  {
    DropQueuedInv(c, s, {item.key});
    hide Inv, NoncesOf, HasLast, Clamp, EntryOk, RankedLast;
    StampAtNext(c, s.(queued := s.queued - {item.key}), ctx, item);
  }

  lemma AppendEntered(c: Config, s: State, ctx: Ctx, item: Item)
    requires Inv(c, s) && AtNext(s, item.key)
    ensures var s1 := Tick(s);
            var e := Stamp(c, s1, ctx, item);
            var adm := Admit(c, s1, ctx.block, e, false);
            item.key !in s.active &&
            (!adm.Refused? ==>
              var s2 := s1.(queued := s1.queued - {item.key});
              && RoomMade(c, s2, MakeRoom(c, s2, adm).state, adm, item.key.sender)
              && Entered(c, s1, adm, e) == Activate(MakeRoom(c, s2, adm).state, e)
              && Inv(c, Entered(c, s1, adm, e)))
  {
    var s1 := Tick(s);
    AtNextNotActive(c, s, item.key);
    TickInv(c, s);
    hide Inv, NoncesOf, HasLast, Clamp, EntryOk, RankedLast, Admit, RoomMade, MakeRoom, Next;
    assert AtNext(s1, item.key) by { NextAfterTick(s, item.key.sender); }
    AppendSetup(c, s1, ctx, item);
    MinusAbsent(s1.active, item.key);
    var e := Stamp(c, s1, ctx, item);
    var adm := Admit(c, s1, ctx.block, e, false);
    var s2 := s1.(queued := s1.queued - {item.key});
    if !adm.Refused? {
      MakeRoomInv(c, s2, ctx.block, e, Rank(Score(e.tier, item.priority), s2.order));
      EnterInv(c, s2, MakeRoom(c, s2, adm).state, adm, e);
    }
  }

  lemma NextAfterTick(s: State, sender: string)
    requires sender in s.infos
    ensures Next(Tick(s), sender) == Next(s, sender)
  {
  }

  lemma InsertActiveInv(c: Config, s: State, ctx: Ctx, item: Item)
    requires Inv(c, s) && item.key.sender in s.infos
    requires item.key in s.active || AtNext(s, item.key)
    requires SafeReplacement(c, s, ctx, item)
    ensures Inv(c, InsertActive(c, s, ctx, item).state)
  {
    var s1 := Tick(s);
    var e := Stamp(c, s1, ctx, item);
    var adm := Admit(c, s1, ctx.block, e, item.key in s.active);
    TickInv(c, s);
    hide Inv, Stamp, Admit, Promote;
    if InsertActive(c, s, ctx, item).error == Ok {
      if item.key in s.active {
        ReplaceEntered(c, s, ctx, item);
      } else {
        AppendEntered(c, s, ctx, item);
      }
      SenderKept(c, s, ctx, item);
      hide MakeRoom;
      PromoteInv(c, Entered(c, s1, adm, e), ctx, item.key.sender);
    }
  }

  /** The inserting sender stays registered, with its sequence, while room is made. */
  lemma SenderKept(c: Config, s: State, ctx: Ctx, item: Item)
    requires Inv(c, s) && item.key.sender in s.infos
    requires item.key in s.active || AtNext(s, item.key)
    requires item.key in s.active ==> item.priority > s.active[item.key].item.priority
    requires SafeReplacement(c, s, ctx, item)
    ensures var s1 := Tick(s);
            var e := Stamp(c, s1, ctx, item);
            var adm := Admit(c, s1, ctx.block, e, item.key in s.active);
            !adm.Refused? ==>
              var t := Entered(c, s1, adm, e);
              item.key.sender in t.infos && t.infos[item.key.sender] == s.infos[item.key.sender]
  {
    hide Inv, Stamp, Admit, MakeRoom;
    if item.key in s.active {
      ReplaceEntered(c, s, ctx, item);
    } else {
      AppendEntered(c, s, ctx, item);
    }
  }
}
