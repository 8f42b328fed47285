/** When the queues could hold everything in the pool, a promotion drops nothing: whatever it evicts finds a place in
    the queue. */
module MempoolSpace {
  import opened Common
  import opened MempoolTypes
  import opened MempoolState
  import opened MempoolInvariant
  import opened MempoolPreservation
  import opened MempoolAdmission
  import opened MempoolPromotion
  import opened MempoolConservation
  import opened MempoolLaws

  /** The keys of everything in the pool. */
  ghost function Held(s: State): set<Key> { s.active.Keys + s.queued.Keys }

  ghost function Slice(ks: set<Key>, sender: string): (ns: set<nat>)
    ensures forall n: nat {:trigger n in ns} {:trigger Key(sender, n) in ks} :: n in ns <==> Key(sender, n) in ks
  {
    set k {:trigger k in ks} | k in ks && k.sender == sender :: k.nonce
  }

  /** The queues' limits allow for all these keys at once. */
  ghost predicate Allowed(c: Config, ks: set<Key>) {
    && |ks| <= c.maxQueuedTotal
    && (forall sender {:trigger Slice(ks, sender)} :: |Slice(ks, sender)| <= c.maxQueuedPerSender)
  }

  /** Everything in the pool would fit into the queues. */
  ghost predicate Spacious(c: Config, s: State) { Allowed(c, Held(s)) }

  lemma FewerAllowed(c: Config, ks: set<Key>, more: set<Key>)
    requires Allowed(c, more) && ks <= more
    ensures Allowed(c, ks)
  {
    SubsetSize(ks, more);
    forall sender {:trigger Slice(ks, sender)} ensures |Slice(ks, sender)| <= c.maxQueuedPerSender {
      forall n: nat | n in Slice(ks, sender) ensures n in Slice(more, sender) {
        assert Key(sender, n) in ks;
      }
      SubsetSize(Slice(ks, sender), Slice(more, sender));
    }
  }

  // ---- one eviction ---------------------------------------------------------------------------

  lemma PlaceLeft(c: Config, queued: map<Key, Entry>, k: Key, ks: set<Key>)
    requires k !in queued && queued.Keys + {k} <= ks && Allowed(c, ks)
    ensures |queued| < c.maxQueuedTotal && |NoncesOf(queued, k.sender)| < c.maxQueuedPerSender
  {
    var mine := NoncesOf(queued, k.sender);
    assert k == Key(k.sender, k.nonce);
    SubsetSize(queued.Keys + {k}, ks);
    assert |queued.Keys + {k}| == |queued| + 1;
    forall n: nat | n in mine + {k.nonce} ensures n in Slice(ks, k.sender) {
      assert Key(k.sender, n) in queued || n == k.nonce;
      assert Key(k.sender, n) in ks;
    }
    SubsetSize(mine + {k.nonce}, Slice(ks, k.sender));
  }

  lemma EnqueuePlaces(c: Config, s: State, e: Entry, ks: set<Key>)
    requires e.item.key !in s.queued && s.queued.Keys + {e.item.key} <= ks && Allowed(c, ks)
    ensures Enqueue(c, s, e) == Queueing(s.(queued := s.queued[e.item.key := e]), Ok, None)
  {
    PlaceLeft(c, s.queued, e.item.key, ks);
    hide Allowed, NoncesOf, MaxOf;
  }

  lemma EnqueueOne(c: Config, s: State, e: Entry)
    ensures EnqueueAll(c, s, [e]) ==
              var q := Enqueue(c, s, AsQueued(e)); Outcome(q.state, Displaced(q, AsQueued(e)))
  {
    hide Enqueue, Displaced;
    assert [e][..0] == [];
    var q := Enqueue(c, s, AsQueued(e));
    assert [] + Displaced(q, AsQueued(e)) == Displaced(q, AsQueued(e));
  }

  /** The index's last entry goes to the queue and nothing leaves the pool. */
  lemma EvictPlaces(c: Config, s: State, v: Entry, ks: set<Key>)
    requires Inv(c, s) && IsLast(s.active, v) && Held(s) <= ks && Allowed(c, ks)
    ensures var o := RemoveByReason(c, s, v.item.key, CapacityEvicted, None);
            o.removed == [] && Held(o.state) <= ks
  {
    hide Inv, IsLast, Enqueue, EnqueueAll, Demote, Allowed, IsEmpty;
    var k := v.item.key;
    CutLast(c, s, v);
    SlotsDisjoint(c, s, k);
    EvictDemotesOne(c, s, v);
    var t := s.(active := s.active - {k});
    EnqueueOne(c, t, v);
    EnqueuePlaces(c, t, AsQueued(v), ks);
  }

  lemma MakeRoomPlaces(c: Config, s: State, block: Option<BlockLimits>, e: Entry, ks: set<Key>)
    requires Inv(c, s) && Held(s) <= ks && Allowed(c, ks)
    ensures var room := MakeRoom(c, s, Admit(c, s, block, e, false));
            room.removed == [] && Held(room.state) <= ks
  {
    hide Inv, IsLast, RemoveByReason, Allowed, Held;
    var adm := Admit(c, s, block, e, false);
    if adm.Evict? {
      EvictPlaces(c, s, adm.victim, ks);
    }
  }

  // ---- the promotion loop ---------------------------------------------------------------------

  lemma RequeuePlaces(queued: map<Key, Entry>, es: seq<Entry>, sender: string, n: nat, ks: set<Key>)
    requires Consecutive(es, sender, n) && queued.Keys + KeysOf(es) <= ks
    ensures Requeue(queued, es).Keys <= ks
  {
    RequeueShape(queued, es, sender, n);
    hide Requeue, KeysOf;
  }

  lemma HandKeys(c: Config, s: State, sender: string, es: seq<Entry>)
    requires InHand(c, s, sender, es)
    ensures Consecutive(es, sender, Next(s, sender))
  {
  }

  lemma RestampKeys(es: seq<Entry>, e: Entry)
    requires es != [] && e.item == es[0].item
    ensures KeysOf([e] + es[1..]) == KeysOf(es) && KeysOf(es[1..]) <= KeysOf(es) && e.item.key in KeysOf(es)
  {
    var es' := [e] + es[1..];
    forall k | k in KeysOf(es') ensures k in KeysOf(es) {
      var i :| 0 <= i < |es'| && es'[i].item.key == k;
      assert es[i].item.key == k;
    }
    forall k | k in KeysOf(es) ensures k in KeysOf(es') {
      var i :| 0 <= i < |es| && es[i].item.key == k;
      assert es'[i].item.key == k;
    }
    forall k | k in KeysOf(es[1..]) ensures k in KeysOf(es) {
      var i :| 0 <= i < |es[1..]| && es[1..][i].item.key == k;
      assert es[i + 1].item.key == k;
    }
  }

  lemma {:induction false} SpaciousLoop(c: Config, s: State, ctx: Ctx, sender: string, es: seq<Entry>, ks: set<Key>)
    requires Inv(c, s) && InHand(c, s, sender, es) && Held(s) + KeysOf(es) <= ks && Allowed(c, ks)
    ensures var p := PromoteAll(c, s, ctx, es);
            p.removed == [] && Held(p.state) <= ks
    decreases |es|
  {
    hide Inv, InHand, Stamp, Admit, MakeRoom, Requeue, Allowed, KeysOf, Consecutive, Next;
    if es != [] {
      var s1 := Tick(s);
      var e := Stamp(c, s1, ctx, es[0].item);
      var adm := Admit(c, s1, ctx.block, e, false);
      TickInv(c, s);
      TickInHand(c, s, sender, es);
      StampItem(c, s1, ctx, es[0].item);
      RestampKeys(es, e);
      if adm.Refused? {
        RestampInHand(c, s1, sender, es, e);
        HandKeys(c, s1, sender, [e] + es[1..]);
        RequeuePlaces(s1.queued, [e] + es[1..], sender, Next(s1, sender), ks);
      } else {
        MakeRoomPlaces(c, s1, ctx.block, e, ks);
        PromoteOneInv(c, s1, ctx, sender, es);
        SpaciousLoop(c, Activate(MakeRoom(c, s1, adm).state, e), ctx, sender, es[1..], ks);
      }
    }
  }

  lemma ChainHeld(queued: map<Key, Entry>, sender: string, n: nat)
    requires WellKeyed(queued)
    ensures KeysOf(Chain(queued, sender, n)) <= queued.Keys
  {
    ChainShape(queued, sender, n);
    hide Chain;
  }

  lemma SpaciousPromote(c: Config, s: State, ctx: Ctx, sender: string)
    requires Inv(c, s) && Spacious(c, s) && sender in s.infos
    ensures var p := Promote(c, s, ctx, sender);
            p.removed == [] && Held(p.state) <= Held(s)
  {
    hide Inv, Chain, Next, KeysOf, PromoteAll, InHand, Allowed;
    var es := Chain(s.queued, sender, Next(s, sender));
    QueueFacts(c, s, sender);
    ChainHeld(s.queued, sender, Next(s, sender));
    CollectInHand(c, s, sender);
    SpaciousLoop(c, s.(queued := s.queued - KeysOf(es)), ctx, sender, es, Held(s));
  }

  // ---- one turn -------------------------------------------------------------------------------

  ghost predicate AllOf(es: seq<Entry>, sender: string) {
    forall i {:trigger es[i]} :: 0 <= i < |es| ==> es[i].item.key.sender == sender
  }

  lemma {:induction false} RunOwn(m: map<Key, Entry>, sender: string, lo: nat, hi: nat)
    requires WellKeyed(m)
    ensures AllOf(Run(m, sender, lo, hi), sender)
    decreases hi
  {
    if hi > lo {
      RunOwn(m, sender, lo, hi - 1);
    }
  }

  lemma StaleOwn(c: Config, s: State, sender: string, seqNo: nat)
    requires Inv(c, s)
    ensures var o := RemoveStale(SetSeq(s, sender, seqNo), sender, seqNo);
            AllOf(o.removed, sender) && Held(o.state) <= Held(s)
  {
    InvKeys(c, s);
    hide Inv, Run;
    RunOwn(s.active, sender, 0, seqNo);
    RunOwn(s.queued, sender, 0, seqNo);
  }

  /** A sender's turn drops only its own stale entries, and there is still space afterwards. */
  lemma SpaciousTurn(c: Config, s: State, ctx: Ctx, sender: string, seqNo: nat)
    requires Inv(c, s) && Spacious(c, s)
    ensures var p := PromoteSender(c, s, ctx, sender, seqNo);
            AllOf(p.removed, sender) && Spacious(c, p.state)
  {
    hide Inv, SetSeq, RemoveStale, Promote, IsEmpty, Allowed;
    if sender in s.infos {
      var stale := RemoveStale(SetSeq(s, sender, seqNo), sender, seqNo);
      StaleInv(c, s, sender, seqNo);
      StaleOwn(c, s, sender, seqNo);
      FewerAllowed(c, Held(stale.state), Held(s));
      SpaciousPromote(c, stale.state, ctx, sender);
      FewerAllowed(c, Held(Promote(c, stale.state, ctx, sender).state), Held(s));
      assert stale.removed + [] == stale.removed;
    }
  }
}
