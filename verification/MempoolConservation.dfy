/** Nothing is lost and nothing is made up: for every critical section, the pooled transactions before it plus the
    accepted one are the pooled transactions after it plus those it reports as removed. */
module MempoolConservation {
  import opened Common
  import opened MempoolTypes
  import opened MempoolState
  import opened MempoolInvariant
  import opened MempoolPreservation
  import opened MempoolAdmission
  import opened MempoolPromotion
  import opened MempoolSections

  ghost function ItemSet(m: map<Key, Entry>): set<Item> {
    set k {:trigger k in m} | k in m :: m[k].item
  }

  ghost function ItemsIn(m: map<Key, Entry>): multiset<Item> { multiset(ItemSet(m)) }

  ghost function Bare(es: seq<Entry>): (r: seq<Item>)
    ensures |r| == |es| && (forall i :: 0 <= i < |r| ==> r[i] == es[i].item)
  {
    seq(|es|, i requires 0 <= i < |es| => es[i].item)
  }

  ghost function Items(es: seq<Entry>): multiset<Item> { multiset(Bare(es)) }

  /** The members of the pool, active and queued together. */
  ghost function Pool(s: State): multiset<Item> {
    ItemsIn(s.active) + ItemsIn(s.queued)
  }

  ghost predicate Keys(s: State) { WellKeyed(s.active) && WellKeyed(s.queued) }

  // ---- maps -----------------------------------------------------------------------------------

  lemma Follow<T>(a: multiset<T>, b: multiset<T>, c: multiset<T>,
                  x: multiset<T>, y: multiset<T>, z: multiset<T>, w: multiset<T>)
    requires a + x == b + y && b + z == c + w
    ensures a + (x + z) == c + (y + w)
  {
    assert a + (x + z) == (a + x) + z;
    assert (b + y) + z == (b + z) + y;
    assert (c + w) + y == c + (y + w);
  }

  lemma Beside<T>(a: multiset<T>, b: multiset<T>, c: multiset<T>, x: multiset<T>, y: multiset<T>)
    requires b + x == c + y
    ensures (a + b) + x == (a + c) + y
    ensures (b + a) + x == (c + a) + y
  {
    assert (a + b) + x == a + (b + x);
    assert (b + a) + x == a + (b + x);
    assert (a + c) + y == a + (c + y);
    assert (c + a) + y == a + (c + y);
  }

  lemma Regroup<T>(a: multiset<T>, b: multiset<T>, c: multiset<T>)
    ensures (a + b) + c == a + (b + c)
  {
  }

  lemma MultisetAdd<T>(a: set<T>, x: T)
    requires x !in a
    ensures multiset(a + {x}) == multiset(a) + multiset{x}
  {
  }

  lemma InItemSet(m: map<Key, Entry>, x: Item)
    requires WellKeyed(m)
    ensures x in ItemSet(m) <==> x.key in m && m[x.key].item == x
  {
  }

  lemma ItemsPut(m: map<Key, Entry>, e: Entry)
    requires WellKeyed(m) && e.item.key !in m
    ensures ItemsIn(m[e.item.key := e]) == ItemsIn(m) + multiset{e.item}
  {
    hide ItemSet;
    var m' := m[e.item.key := e];
    assert ItemSet(m') == ItemSet(m) + {e.item} by {
      forall x ensures x in ItemSet(m') <==> x in ItemSet(m) + {e.item} {
        InItemSet(m, x);
        InItemSet(m', x);
      }
    }
    InItemSet(m, e.item);
    MultisetAdd(ItemSet(m), e.item);
  }

  lemma ItemsDrop(m: map<Key, Entry>, k: Key)
    requires WellKeyed(m) && k in m
    ensures ItemsIn(m) == ItemsIn(m - {k}) + multiset{m[k].item}
  {
    ItemsPut(m - {k}, m[k]);
    assert (m - {k})[k := m[k]] == m;
  }

  lemma ItemsReplace(m: map<Key, Entry>, e: Entry)
    requires WellKeyed(m) && e.item.key in m
    ensures ItemsIn(m[e.item.key := e]) + multiset{m[e.item.key].item} == ItemsIn(m) + multiset{e.item}
  {
    var k := e.item.key;
    ItemsDrop(m, k);
    ItemsPut(m - {k}, e);
    assert (m - {k})[k := e] == m[k := e];
  }

  // ---- lists of entries -----------------------------------------------------------------------

  lemma ItemsJoin(a: seq<Entry>, b: seq<Entry>)
    ensures Items(a + b) == Items(a) + Items(b)
  {
    assert Bare(a + b) == Bare(a) + Bare(b);
  }

  lemma ItemsOne(e: Entry)
    ensures Items([e]) == multiset{e.item}
  {
    assert Bare([e]) == [e.item];
  }

  /** Entries of `m`, each once. */
  ghost predicate Listed(m: map<Key, Entry>, es: seq<Entry>) {
    && (forall i {:trigger es[i]} :: 0 <= i < |es| ==> es[i].item.key in m && m[es[i].item.key] == es[i])
    && (forall i, j {:trigger es[i], es[j]} :: 0 <= i < j < |es| ==> es[i].item.key != es[j].item.key)
  }

  /** Taking a list of entries out of a map takes out exactly their items. */
  lemma {:induction false} ItemsTake(m: map<Key, Entry>, es: seq<Entry>)
    requires WellKeyed(m) && Listed(m, es)
    ensures ItemsIn(m) == ItemsIn(m - KeysOf(es)) + Items(es)
  {
    if es == [] {
      assert m - KeysOf(es) == m;
    } else {
      var es' := es[..|es| - 1];
      var k := es[|es| - 1].item.key;
      ItemsTake(m, es');
      assert k !in KeysOf(es');
      assert es == es' + [es[|es| - 1]];
      ItemsJoin(es', [es[|es| - 1]]);
      ItemsOne(es[|es| - 1]);
      ItemsDrop(m - KeysOf(es'), k);
      KeysOfSnoc(es);
      assert (m - KeysOf(es')) - {k} == m - KeysOf(es);
    }
  }

  lemma RunIsListed(m: map<Key, Entry>, sender: string, lo: nat, hi: nat)
    requires WellKeyed(m)
    ensures Listed(m, Run(m, sender, lo, hi))
    ensures forall k :: k in KeysOf(Run(m, sender, lo, hi)) <==> k in m && k.sender == sender && lo <= k.nonce < hi
  {
    RunLists(m, sender, lo, hi);
  }

  lemma ItemsCutBelow(m: map<Key, Entry>, sender: string, n: nat)
    requires WellKeyed(m)
    ensures ItemsIn(m) == ItemsIn(CutBelow(m, sender, n)) + Items(Run(m, sender, 0, n))
  {
    RunIsListed(m, sender, 0, n);
    ItemsTake(m, Run(m, sender, 0, n));
    assert m - KeysOf(Run(m, sender, 0, n)) == CutBelow(m, sender, n);
  }

  lemma ItemsCutFrom(m: map<Key, Entry>, sender: string, n: nat)
    requires WellKeyed(m) && NoncesOf(m, sender) != {}
    ensures ItemsIn(m) == ItemsIn(CutFrom(m, sender, n)) + Items(Run(m, sender, n, MaxOf(NoncesOf(m, sender)) + 1))
  {
    var hi := MaxOf(NoncesOf(m, sender)) + 1;
    RunIsListed(m, sender, n, hi);
    ItemsTake(m, Run(m, sender, n, hi));
    forall k | k in m && k.sender == sender ensures k.nonce < hi {
      assert Key(sender, k.nonce) == k;
    }
    assert m - KeysOf(Run(m, sender, n, hi)) == CutFrom(m, sender, n);
  }

  lemma RequeueFresh(queued: map<Key, Entry>, es: seq<Entry>, sender: string, n: nat)
    requires Consecutive(es, sender, n) && es != [] && es[|es| - 1].item.key !in queued
    ensures es[|es| - 1].item.key !in Requeue(queued, es[..|es| - 1])
  {
    hide Requeue;
    RequeueShape(queued, es[..|es| - 1], sender, n);
    LastKeyIsNew(es, sender, n);
  }

  lemma {:induction false} RequeueKeyed(queued: map<Key, Entry>, es: seq<Entry>)
    requires WellKeyed(queued)
    ensures WellKeyed(Requeue(queued, es))
    decreases |es|
  {
    if es != [] {
      RequeueKeyed(queued, es[..|es| - 1]);
    }
  }

  lemma {:induction false} ItemsRequeue(queued: map<Key, Entry>, es: seq<Entry>, sender: string, n: nat)
    requires WellKeyed(queued) && Consecutive(es, sender, n)
    requires forall i :: 0 <= i < |es| ==> es[i].item.key !in queued
    ensures ItemsIn(Requeue(queued, es)) == ItemsIn(queued) + Items(es)
    decreases |es|
  {
    hide WellKeyed, ItemsIn, Items;
    if es == [] {
      NoItems();
    } else {
      var init := es[..|es| - 1];
      var e := es[|es| - 1];
      var q := Requeue(queued, init);
      RequeueKeyed(queued, init);
      RequeueFresh(queued, es, sender, n);
      ItemsRequeue(queued, init, sender, n);
      assert Requeue(queued, es) == q[e.item.key := e];
      hide Requeue, Consecutive;
      ItemsPut(q, e);
      assert es == init + [e];
      ItemsJoin(init, [e]);
      ItemsOne(e);
      Regroup(ItemsIn(queued), Items(init), multiset{e.item});
    }
  }

  // ---- removal --------------------------------------------------------------------------------

  /** What leaves the pool is what is reported removed. */
  ghost predicate Loses(s: State, t: State, removed: seq<Entry>) {
    Keys(t) && Pool(s) == Pool(t) + Items(removed)
  }

  lemma LosesNothing(s: State)
    requires Keys(s)
    ensures Loses(s, s, [])
  {
    assert Items([]) == multiset{};
  }

  lemma LosesThen(s: State, t: State, u: State, a: seq<Entry>, b: seq<Entry>)
    requires Loses(s, t, a) && Loses(t, u, b)
    ensures Loses(s, u, a + b)
  {
    ItemsJoin(a, b);
  }

  /** One enqueue: the new entry comes in; the displaced one, or the entry itself, goes out. */
  lemma EnqueueConserves(c: Config, s: State, e: Entry)
    requires Keys(s)
    ensures var q := Enqueue(c, s, e);
            Keys(q.state) && Pool(s) + multiset{e.item} == Pool(q.state) + Items(Displaced(q, e))
  {
    var q := Enqueue(c, s, e);
    assert Keys(q.state) && q.state.active == s.active;
    EnqueueItems(c, s, e);
    DisplacedItems(q, e);
    hide ItemsIn, Items, Enqueue;
    Beside(ItemsIn(s.active), ItemsIn(s.queued), ItemsIn(q.state.queued), multiset{e.item}, Items(Displaced(q, e)));
  }

  lemma EnqueueItems(c: Config, s: State, e: Entry)
    requires Keys(s)
    ensures var q := Enqueue(c, s, e);
            ItemsIn(s.queued) + multiset{e.item} ==
              ItemsIn(q.state.queued) +
              ((if q.evicted.Some? then multiset{q.evicted.value.item} else multiset{}) +
               (if q.error != Ok then multiset{e.item} else multiset{}))
  {
    hide ItemsIn;
    var q := Enqueue(c, s, e);
    if e.item.key in s.queued {
      ItemsReplace(s.queued, e);
    } else if q.error == Ok && q.evicted.Some? {
      EvictedSlot(c, s, e);
      hide Enqueue;
      var high := q.evicted.value.item.key;
      ItemsDrop(s.queued, high);
      ItemsPut(s.queued - {high}, e);
    } else if q.error == Ok {
      ItemsPut(s.queued, e);
    }
  }

  lemma EvictedSlot(c: Config, s: State, e: Entry)
    requires Keys(s) && e.item.key !in s.queued
    ensures var q := Enqueue(c, s, e);
            q.error == Ok && q.evicted.Some? ==>
              var high := q.evicted.value.item.key;
              && high in s.queued && s.queued[high] == q.evicted.value
              && q.state == s.(queued := (s.queued - {high})[e.item.key := e])
  {
  }

  lemma DisplacedItems(q: Queueing, e: Entry)
    ensures Items(Displaced(q, e)) ==
              (if q.evicted.Some? then multiset{q.evicted.value.item} else multiset{}) +
              (if q.error != Ok then multiset{e.item} else multiset{})
  {
    var a: seq<Entry> := if q.evicted.Some? then [q.evicted.value] else [];
    var b: seq<Entry> := if q.error != Ok then [e] else [];
    ItemsJoin(a, b);
    assert Bare(a) == if q.evicted.Some? then [q.evicted.value.item] else [];
    assert Bare(b) == if q.error != Ok then [e.item] else [];
  }

  lemma {:induction false} EnqueueAllConserves(c: Config, s: State, es: seq<Entry>)
    requires Keys(s)
    ensures var o := EnqueueAll(c, s, es);
            Keys(o.state) && Pool(s) + Items(es) == Pool(o.state) + Items(o.removed)
  {
    if es == [] {
      assert Bare(es) == [] == Bare([]);
    } else {
      var init := es[..|es| - 1];
      var e := AsQueued(es[|es| - 1]);
      var before := EnqueueAll(c, s, init);
      var q := Enqueue(c, before.state, e);
      EnqueueAllConserves(c, s, init);
      hide Pool, Items, Keys, Enqueue, Displaced;
      EnqueueConserves(c, before.state, e);
      assert es == init + [es[|es| - 1]];
      ItemsJoin(init, [es[|es| - 1]]);
      ItemsOne(es[|es| - 1]);
      ItemsJoin(before.removed, Displaced(q, e));
      Follow(Pool(s), Pool(before.state), Pool(q.state),
             Items(init), Items(before.removed), multiset{e.item}, Items(Displaced(q, e)));
    }
  }

  lemma ActiveCut(s: State, t: State, es: seq<Entry>)
    requires Keys(s) && WellKeyed(t.active) && t.queued == s.queued
    requires ItemsIn(s.active) == ItemsIn(t.active) + Items(es)
    ensures Loses(s, t, es)
  {
    hide ItemsIn, Items;
    Beside(ItemsIn(s.queued), ItemsIn(s.active), ItemsIn(t.active), multiset{}, Items(es));
  }

  lemma QueuedCut(s: State, t: State, es: seq<Entry>)
    requires Keys(s) && WellKeyed(t.queued) && t.active == s.active
    requires ItemsIn(s.queued) == ItemsIn(t.queued) + Items(es)
    ensures Loses(s, t, es)
  {
    hide ItemsIn, Items;
    Beside(ItemsIn(s.active), ItemsIn(s.queued), ItemsIn(t.queued), multiset{}, Items(es));
  }

  lemma DemoteConserves(c: Config, s: State, sender: string, start: nat)
    requires Keys(s)
    ensures var o := Demote(c, s, sender, start);
            Loses(s, o.state, o.removed)
  {
    var a := NoncesOf(s.active, sender);
    if a == {} || start > MaxOf(a) {
      LosesNothing(s);
    } else {
      var t := s.(active := CutFrom(s.active, sender, start));
      var es := Run(s.active, sender, start, MaxOf(a) + 1);
      ItemsCutFrom(s.active, sender, start);
      assert WellKeyed(t.active);
      hide ItemsIn, Items, Run, EnqueueAll, CutFrom, Pool, WellKeyed;
      ActiveCut(s, t, es);
      EnqueueAllConserves(c, t, es);
    }
  }

  lemma RemoveNonceConserves(s: State, k: Key)
    requires Keys(s)
    ensures var o := RemoveNonce(s, k);
            Loses(s, o.state, o.removed)
  {
    var o := RemoveNonce(s, k);
    if k in s.active {
      ItemsDrop(s.active, k);
      ItemsOne(s.active[k]);
      hide ItemsIn, Items, Pool, Loses;
      ActiveCut(s, o.state, [s.active[k]]);
    } else if k in s.queued {
      ItemsDrop(s.queued, k);
      ItemsOne(s.queued[k]);
      hide ItemsIn, Items, Pool, Loses;
      QueuedCut(s, o.state, [s.queued[k]]);
    } else {
      LosesNothing(s);
    }
  }

  lemma RemoveStaleConserves(s: State, sender: string, seqNo: nat)
    requires Keys(s)
    ensures var o := RemoveStale(s, sender, seqNo);
            Loses(s, o.state, o.removed)
  {
    var t := s.(active := CutBelow(s.active, sender, seqNo));
    var u := t.(queued := CutBelow(s.queued, sender, seqNo));
    ItemsCutBelow(s.active, sender, seqNo);
    ItemsCutBelow(s.queued, sender, seqNo);
    assert WellKeyed(t.active) && WellKeyed(u.queued);
    hide ItemsIn, Items, Run, CutBelow, Pool, WellKeyed, Loses;
    ActiveCut(s, t, Run(s.active, sender, 0, seqNo));
    QueuedCut(t, u, Run(s.queued, sender, 0, seqNo));
    LosesThen(s, t, u, Run(s.active, sender, 0, seqNo), Run(s.queued, sender, 0, seqNo));
  }

  /** The pool's members do not depend on the sender records. */
  lemma InfosLose(s: State, t: State, u: State, removed: seq<Entry>)
    requires Loses(s, t, removed) && u.active == t.active && u.queued == t.queued
    ensures Loses(s, u, removed)
  {
  }

  lemma RemoveCoreConserves(c: Config, s: State, k: Key, reason: Reason)
    requires Keys(s)
    ensures var o := RemoveCore(c, s, k, reason);
            Loses(s, o.state, o.removed)
  {
    hide Demote, RemoveNonce, Pool, Items;
    match reason
    case CapacityEvicted => DemoteConserves(c, s, k.sender, k.nonce);
    case AnteRejectedInPrepare =>
      var head := RemoveNonce(s, k);
      var tail := Demote(c, head.state, k.sender, k.nonce + 1);
      RemoveNonceConserves(s, k);
      DemoteConserves(c, head.state, k.sender, k.nonce + 1);
      LosesThen(s, head.state, tail.state, head.removed, tail.removed);
    case CommittedInBlock => RemoveNonceConserves(s, k);
  }

  lemma RemoveByReasonConserves(c: Config, s: State, k: Key, reason: Reason, onChain: Option<nat>)
    requires Keys(s)
    ensures var o := RemoveByReason(c, s, k, reason, onChain);
            Loses(s, o.state, o.removed)
  {
    hide Pool, Items, Keys, RemoveCore, RemoveStale, IsEmpty;
    var o := RemoveByReason(c, s, k, reason, onChain);
    LosesNothing(s);
    if k.sender in s.infos {
      var core := RemoveCore(c, s, k, reason);
      RemoveCoreConserves(c, s, k, reason);
      if onChain.None? {
        InfosLose(s, core.state, o.state, core.removed);
      } else {
        var t := SetSeq(core.state, k.sender, onChain.value);
        InfosLose(s, core.state, t, core.removed);
        RemoveStaleConserves(t, k.sender, onChain.value);
        var stale := RemoveStale(t, k.sender, onChain.value);
        LosesThen(s, t, stale.state, core.removed, stale.removed);
        InfosLose(s, stale.state, o.state, o.removed);
      }
    }
  }

  lemma MakeRoomConserves(c: Config, s: State, adm: Admission)
    requires Keys(s)
    ensures var o := MakeRoom(c, s, adm);
            Loses(s, o.state, o.removed)
  {
    hide RemoveByReason, Loses;
    LosesNothing(s);
    if adm.Evict? {
      RemoveByReasonConserves(c, s, adm.victim.item.key, CapacityEvicted, None);
    }
  }

  // ---- promotion ------------------------------------------------------------------------------

  /** What enters is `added`; what leaves is what is reported removed. */
  ghost predicate Moves(s: State, added: multiset<Item>, t: State, removed: seq<Entry>) {
    Keys(t) && Pool(s) + added == Pool(t) + Items(removed)
  }

  lemma MovesThen(s: State, x: multiset<Item>, t: State, a: seq<Entry>, y: multiset<Item>, u: State, b: seq<Entry>)
    requires Moves(s, x, t, a) && Moves(t, y, u, b)
    ensures Moves(s, x + y, u, a + b)
  {
    hide Pool, Items;
    ItemsJoin(a, b);
    Follow(Pool(s), Pool(t), Pool(u), x, Items(a), y, Items(b));
  }

  lemma LosesIsMoves(s: State, t: State, removed: seq<Entry>)
    ensures Loses(s, t, removed) <==> Moves(s, multiset{}, t, removed)
  {
    hide Pool, Items;
    assert Pool(s) + multiset{} == Pool(s);
  }

  lemma ActivateMoves(s: State, e: Entry)
    requires Keys(s) && e.item.key !in s.active
    ensures Moves(s, multiset{e.item}, Activate(s, e), [])
  {
    ItemsPut(s.active, e);
    assert Bare([]) == [];
    hide ItemsIn;
    Beside(ItemsIn(s.queued), ItemsIn(s.active), ItemsIn(Activate(s, e).active), multiset{e.item}, multiset{});
  }

  lemma RequeueMoves(s: State, es: seq<Entry>, sender: string, n: nat)
    requires Keys(s) && Consecutive(es, sender, n)
    requires forall i :: 0 <= i < |es| ==> es[i].item.key !in s.queued
    ensures Moves(s, Items(es), s.(queued := Requeue(s.queued, es)), [])
  {
    ItemsRequeue(s.queued, es, sender, n);
    RequeueKeyed(s.queued, es);
    assert Bare([]) == [];
    hide ItemsIn, Requeue;
    var t := s.(queued := Requeue(s.queued, es));
    Beside(ItemsIn(s.active), ItemsIn(s.queued), ItemsIn(t.queued), Items(es), multiset{});
  }

  lemma InvKeys(c: Config, s: State)
    requires Inv(c, s)
    ensures Keys(s)
  {
  }

  lemma RestampedItems(es: seq<Entry>, e: Entry)
    requires es != [] && e.item == es[0].item
    ensures Items([e] + es[1..]) == Items(es) == multiset{e.item} + Items(es[1..])
  {
    hide Items;
    assert es == [es[0]] + es[1..];
    ItemsJoin([e], es[1..]);
    ItemsJoin([es[0]], es[1..]);
    ItemsOne(e);
    ItemsOne(es[0]);
  }

  /** One accepted promotion. */
  lemma EnterMoves(c: Config, s: State, ctx: Ctx, sender: string, es: seq<Entry>, e: Entry, adm: Admission)
    requires Inv(c, s) && InHand(c, s, sender, es) && es != []
    requires e == Stamp(c, s, ctx, es[0].item) && adm == Admit(c, s, ctx.block, e, false) && !adm.Refused?
    ensures var room := MakeRoom(c, s, adm);
            Moves(s, multiset{e.item}, Activate(room.state, e), room.removed)
  {
    var room := MakeRoom(c, s, adm);
    assert es[0].item.key !in s.queued;
    HandQueueable(c, s, sender, es, 0);
    PromoteOneInv(c, s, ctx, sender, es);
    InvKeys(c, s);
    assert e.item == es[0].item;
    hide Inv, InHand, Stamp, Admit, MakeRoom, RoomMade, Pool, Items;
    RoomLeaves(c, s, room.state, adm, e.item.key);
    MakeRoomConserves(c, s, adm);
    LosesIsMoves(s, room.state, room.removed);
    ActivateMoves(room.state, e);
    MovesThen(s, multiset{}, room.state, room.removed, multiset{e.item}, Activate(room.state, e), []);
    assert room.removed + [] == room.removed;
    assert multiset{} + multiset{e.item} == multiset{e.item};
  }

  lemma {:induction false} PromoteAllMoves(c: Config, s: State, ctx: Ctx, sender: string, es: seq<Entry>)
    requires Inv(c, s) && InHand(c, s, sender, es)
    ensures var p := PromoteAll(c, s, ctx, es);
            Moves(s, Items(es), p.state, p.removed)
    decreases |es|
  {
    InvKeys(c, s);
    if es == [] {
      assert Bare(es) == [] == Bare([]);
    } else {
      var s1 := Tick(s);
      TickInv(c, s);
      TickInHand(c, s, sender, es);
      var e := Stamp(c, s1, ctx, es[0].item);
      var adm := Admit(c, s1, ctx.block, e, false);
      RestampedItems(es, e);
      assert Pool(s1) == Pool(s);
      if adm.Refused? {
        RestampInHand(c, s1, sender, es, e);
        hide Inv, Admit, Stamp, Pool, Items, Requeue, Next, NoncesOf;
        InvKeys(c, s1);
        RequeueMoves(s1, [e] + es[1..], sender, Next(s1, sender));
      } else {
        var room := MakeRoom(c, s1, adm);
        var t := Activate(room.state, e);
        PromoteOneInv(c, s1, ctx, sender, es);
        hide Inv, Admit, Stamp, MakeRoom, Pool, Items, InHand, Activate;
        EnterMoves(c, s1, ctx, sender, es, e, adm);
        PromoteAllMoves(c, t, ctx, sender, es[1..]);
        var rest := PromoteAll(c, t, ctx, es[1..]);
        MovesThen(s1, multiset{e.item}, t, room.removed, Items(es[1..]), rest.state, rest.removed);
      }
    }
  }

  lemma ChainIsListed(queued: map<Key, Entry>, sender: string, n: nat)
    requires WellKeyed(queued)
    ensures Listed(queued, Chain(queued, sender, n))
  {
    ChainShape(queued, sender, n);
  }

  /** Promotion only loses what capacity evictions pushed out; everything collected stays in the pool. */
  lemma PromoteConserves(c: Config, s: State, ctx: Ctx, sender: string)
    requires Inv(c, s) && sender in s.infos
    ensures var p := Promote(c, s, ctx, sender);
            Loses(s, p.state, p.removed)
  {
    var es := Chain(s.queued, sender, Next(s, sender));
    var t := s.(queued := s.queued - KeysOf(es));
    CollectInHand(c, s, sender);
    InvKeys(c, s);
    ChainIsListed(s.queued, sender, Next(s, sender));
    hide Inv, Chain, Next, KeysOf, InHand, Items, ItemsIn, PromoteAll, Listed;
    ItemsTake(s.queued, es);
    QueuedCut(s, t, es);
    hide Pool;
    PromoteAllMoves(c, t, ctx, sender, es);
  }

  // ---- the sections ---------------------------------------------------------------------------

  /** A section's result balances. */
  ghost predicate Conserves(s: State, r: Result) {
    Moves(s, multiset(r.added), r.state, r.removed)
  }

  lemma LossConserves(s: State, r: Result)
    requires Loses(s, r.state, r.removed) && r.added == []
    ensures Conserves(s, r)
  {
    LosesIsMoves(s, r.state, r.removed);
  }

  lemma FailedConserves(s: State, t: State, error: Error)
    requires Keys(s) && t.active == s.active && t.queued == s.queued
    ensures Conserves(s, Failed(t, error))
  {
    hide Pool, Items;
    LosesNothing(s);
    InfosLose(s, s, t, []);
    LossConserves(s, Failed(t, error));
  }

  lemma InsertQueuedConserves(c: Config, s: State, item: Item)
    requires Keys(s)
    ensures Conserves(s, InsertQueued(c, s, item))
  {
    var e := Entry(item, 0, QUEUED_TIER, Rank(0, 0));
    var q := Enqueue(c, s, e);
    hide Pool, Items, Enqueue;
    FailedConserves(s, s, MissingQueuedExtension);
    FailedConserves(s, s, q.error);
    EnqueueConserves(c, s, e);
    assert multiset([item]) == multiset{item};
    assert q.error == Ok ==> Displaced(q, e) == (if q.evicted.Some? then [q.evicted.value] else []);
  }

  /** Freeing the slot removes its occupants. */
  lemma OccupantsLost(s: State, k: Key)
    requires Keys(s)
    ensures Loses(s, s.(active := s.active - {k}, queued := s.queued - {k}), Occupants(s, k))
  {
    var t := s.(queued := s.queued - {k});
    var u := t.(active := s.active - {k});
    var a := if k in s.queued then [s.queued[k]] else [];
    var b := if k in s.active then [s.active[k]] else [];
    VacateItems(s.queued, k, a);
    VacateItems(s.active, k, b);
    hide ItemsIn, Items, Pool;
    QueuedCut(s, t, a);
    ActiveCut(t, u, b);
    LosesThen(s, t, u, a, b);
  }

  lemma VacateItems(m: map<Key, Entry>, k: Key, a: seq<Entry>)
    requires WellKeyed(m) && a == if k in m then [m[k]] else []
    ensures WellKeyed(m - {k}) && ItemsIn(m) == ItemsIn(m - {k}) + Items(a)
  {
    hide ItemsIn, Items;
    if k in m {
      ItemsDrop(m, k);
      ItemsOne(m[k]);
    } else {
      MinusAbsent(m, k);
      NoItems();
    }
  }

  lemma NoItems()
    ensures Items([]) == multiset{}
  {
  }

  lemma InsertActiveConserves(c: Config, s: State, ctx: Ctx, item: Item)
    requires Inv(c, s) && item.key.sender in s.infos
    requires item.key in s.active || AtNext(s, item.key)
    requires SafeReplacement(c, s, ctx, item)
    ensures Conserves(s, InsertActive(c, s, ctx, item))
  {
    var s1 := Tick(s);
    var e := Stamp(c, s1, ctx, item);
    var adm := Admit(c, s1, ctx.block, e, item.key in s.active);
    var r := InsertActive(c, s, ctx, item);
    InvKeys(c, s);
    assert e.item == item;
    hide Inv, Stamp, Admit, Promote, AtNext, SafeReplacement, Pool, Items, MakeRoom;
    if r.error != Ok {
      FailedConserves(s, s1, r.error);
    } else {
      InsertReady(c, s, ctx, item);
      SenderKept(c, s, ctx, item);
      AcceptedMoves(c, s1, ctx, e, adm);
      assert Pool(s1) == Pool(s) by { TickPool(s); }
      assert multiset([item]) == multiset{item};
    }
  }

  lemma TickPool(s: State)
    ensures Pool(Tick(s)) == Pool(s)
  {
  }

  lemma AcceptedMoves(c: Config, s: State, ctx: Ctx, e: Entry, adm: Admission)
    requires Keys(s) && Insertable(c, s, e, adm)
    requires e.item.key.sender in Entered(c, s, adm, e).infos
    ensures var k := e.item.key;
            var room := MakeRoom(c, s.(active := s.active - {k}, queued := s.queued - {k}), adm);
            var p := Promote(c, Activate(room.state, e), ctx, k.sender);
            Moves(s, multiset{e.item}, p.state, Occupants(s, k) + room.removed + p.removed)
  {
    var k := e.item.key;
    var t := s.(active := s.active - {k}, queued := s.queued - {k});
    var room := MakeRoom(c, t, adm);
    var u := Activate(room.state, e);
    var p := Promote(c, u, ctx, k.sender);
    hide Inv, Promote, Pool, Items, MakeRoom, Occupants;
    OccupantsLost(s, k);
    MakeRoomConserves(c, t, adm);
    LosesThen(s, t, room.state, Occupants(s, k), room.removed);
    LosesIsMoves(s, room.state, Occupants(s, k) + room.removed);
    ActivateMoves(room.state, e);
    PromoteConserves(c, u, ctx, k.sender);
    LosesIsMoves(u, p.state, p.removed);
    hide Insertable, Activate, Loses, Moves;
    var out := Occupants(s, k) + room.removed;
    MovesThen(s, multiset{}, room.state, out, multiset{e.item}, u, []);
    MovesThen(s, multiset{} + multiset{e.item}, u, out + [], multiset{}, p.state, p.removed);
    assert out + [] == out;
    assert multiset{} + multiset{e.item} + multiset{} == multiset{e.item};
  }

  lemma InsertItemConserves(c: Config, s: State, ctx: Ctx, item: Item)
    requires Inv(c, s) && item.key.sender in s.infos && SafeReplacement(c, s, ctx, item)
    ensures Conserves(s, InsertItem(c, s, ctx, item))
  {
    InvKeys(c, s);
    hide Inv, Next, SafeReplacement, InsertActive, InsertQueued, Conserves;
    var k := item.key;
    FailedConserves(s, s, StaleSequence);
    if k.nonce > Next(s, k.sender) {
      InsertQueuedConserves(c, s, item);
    } else {
      if k.nonce < Next(s, k.sender) {
        BelowNext(c, s, k);
      }
      if k in s.active || AtNext(s, k) {
        InsertActiveConserves(c, s, ctx, item);
      }
    }
  }

  /** `Insert` balances: the accepted transaction comes in, and what it reports removed goes out. */
  lemma InsertConserves(c: Config, s: State, ctx: Ctx, tx: Tx, fetched: Option<nat>)
    requires Inv(c, s) && SafeInsert(c, s, ctx, tx)
    ensures Conserves(s, Insert(c, s, ctx, tx, fetched))
  {
    hide Inv, InsertItem, Conserves, Keys;
    InvKeys(c, s);
    var r := Insert(c, s, ctx, tx, fetched);
    if Routed(s, ctx, tx, fetched) {
      var sender := tx.signer.value.sender;
      var s1 := if fetched.Some? then Register(s, sender, fetched.value) else s;
      if fetched.Some? {
        RegisterInv(c, s, sender, fetched.value);
      }
      InsertItemConserves(c, s1, ctx.(txBytes := InsertBytes(ctx, tx).value), NewItem(ctx, tx));
      SamePool(s, s1, r);
    } else {
      FailedConserves(s, s, r.error);
    }
  }

  lemma SamePool(s: State, t: State, r: Result)
    requires Conserves(t, r) && t.active == s.active && t.queued == s.queued
    ensures Conserves(s, r)
  {
    hide ItemsIn, Items;
  }

  lemma RemoveConserves(c: Config, s: State, tx: Tx, reason: Reason)
    requires Keys(s)
    ensures Conserves(s, Remove(c, s, tx, reason))
  {
    hide RemoveByReason, Loses, Conserves;
    if tx.signer.Some? {
      var k := tx.signer.value;
      RemoveByReasonConserves(c, s, k, reason, if reason == CommittedInBlock then Some(k.nonce + 1) else None);
      LossConserves(s, Remove(c, s, tx, reason));
    } else {
      FailedConserves(s, s, NoSigner);
    }
  }

  lemma StaleConserves(s: State, sender: string, seqNo: nat)
    requires Keys(s)
    ensures var o := RemoveStale(SetSeq(s, sender, seqNo), sender, seqNo);
            Loses(s, o.state, o.removed)
  {
    hide RemoveStale, ItemsIn, Items;
    RemoveStaleConserves(SetSeq(s, sender, seqNo), sender, seqNo);
  }

  lemma PromoteSenderConserves(c: Config, s: State, ctx: Ctx, sender: string, seqNo: nat)
    requires Inv(c, s)
    ensures var p := PromoteSender(c, s, ctx, sender, seqNo);
            Loses(s, p.state, p.removed)
  {
    hide Inv, RemoveStale, Promote, Pool, Items, IsEmpty, Keys, Loses;
    InvKeys(c, s);
    LosesNothing(s);
    if sender in s.infos {
      var s1 := SetSeq(s, sender, seqNo);
      var stale := RemoveStale(s1, sender, seqNo);
      var p := Promote(c, stale.state, ctx, sender);
      StaleInv(c, s, sender, seqNo);
      StaleConserves(s, sender, seqNo);
      PromoteConserves(c, stale.state, ctx, sender);
      LosesThen(s, stale.state, p.state, stale.removed, p.removed);
      InfosLose(s, p.state, Cleanup(p.state, sender), stale.removed + p.removed);
    }
  }

  lemma {:induction false} PromoteSendersConserve(c: Config, s: State, ctx: Ctx, seqs: seq<(string, nat)>)
    requires Inv(c, s)
    ensures var p := PromoteSenders(c, s, ctx, seqs);
            Loses(s, p.state, p.removed)
  {
    InvKeys(c, s);
    hide Inv, PromoteSender, Loses;
    LosesNothing(s);
    if seqs != [] {
      var before := PromoteSenders(c, s, ctx, seqs[..|seqs| - 1]);
      var last := PromoteSender(c, before.state, ctx, seqs[|seqs| - 1].0, seqs[|seqs| - 1].1);
      PromoteSendersInv(c, s, ctx, seqs[..|seqs| - 1]);
      PromoteSendersConserve(c, s, ctx, seqs[..|seqs| - 1]);
      PromoteSenderConserves(c, before.state, ctx, seqs[|seqs| - 1].0, seqs[|seqs| - 1].1);
      LosesThen(s, before.state, last.state, before.removed, last.removed);
    }
  }

  lemma {:induction false} CleanupAllKeeps(s: State, senders: seq<string>)
    ensures CleanupAll(s, senders).active == s.active && CleanupAll(s, senders).queued == s.queued
    ensures CleanupAll(s, senders).order == s.order
  {
    hide IsEmpty;
    if senders != [] {
      CleanupAllKeeps(s, senders[..|senders| - 1]);
    }
  }

  lemma PromoteQueuedConserves(c: Config, s: State, ctx: Ctx, seqs: seq<(string, nat)>, activeOnly: seq<string>)
    requires Inv(c, s)
    ensures Conserves(s, PromoteQueued(c, s, ctx, seqs, activeOnly))
  {
    hide Inv, PromoteSenders, Loses, Conserves;
    var p := PromoteSenders(c, s, ctx, seqs);
    PromoteSendersConserve(c, s, ctx, seqs);
    CleanupAllKeeps(p.state, activeOnly);
    InfosLose(s, p.state, CleanupAll(p.state, activeOnly), p.removed);
    LossConserves(s, PromoteQueued(c, s, ctx, seqs, activeOnly));
  }

  lemma ExpireConserves(c: Config, s: State, sender: string, now: int)
    requires Keys(s) && sender in s.infos
    ensures var o := Expire(c, s, sender, now);
            Loses(s, o.state, o.removed)
  {
    var o := Expire(c, s, sender, now);
    hide HasGap, Pool, Items, ItemsIn, Run, CutFrom, Loses;
    LosesNothing(s);
    var since := s.infos[sender].gapSince;
    if !HasGap(s, sender) || since.None? || now - since.value < c.queuedGapTTL {
      InfosLose(s, s, o.state, []);
    } else {
      GapQueue(s, sender);
      CutKeyed(s.queued, sender, 0);
      ItemsCutFrom(s.queued, sender, 0);
      QueuedCut(s, o.state, o.removed);
    }
  }

  lemma GapQueue(s: State, sender: string)
    requires sender in s.infos
    ensures HasGap(s, sender) ==> NoncesOf(s.queued, sender) != {}
  {
  }

  lemma CutKeyed(m: map<Key, Entry>, sender: string, n: nat)
    requires WellKeyed(m)
    ensures WellKeyed(CutFrom(m, sender, n))
  {
  }

  lemma CleanSenderConserves(c: Config, s: State, sender: string, seqNo: nat, now: int)
    requires Inv(c, s)
    ensures var o := CleanSender(c, s, sender, seqNo, now);
            Loses(s, o.state, o.removed)
  {
    hide Inv, RemoveStale, Expire, Pool, Items, IsEmpty, Keys, Loses;
    InvKeys(c, s);
    LosesNothing(s);
    if sender in s.infos {
      var s1 := SetSeq(s, sender, seqNo);
      var stale := RemoveStale(s1, sender, seqNo);
      StaleInv(c, s, sender, seqNo);
      var expired := Expire(c, stale.state, sender, now);
      StaleConserves(s, sender, seqNo);
      InvKeys(c, stale.state);
      ExpireConserves(c, stale.state, sender, now);
      LosesThen(s, stale.state, expired.state, stale.removed, expired.removed);
      InfosLose(s, expired.state, Cleanup(expired.state, sender), stale.removed + expired.removed);
    }
  }

  lemma {:induction false} CleanConserves(c: Config, s: State, seqs: seq<(string, nat)>, now: int)
    requires Inv(c, s)
    ensures var o := CleanSenders(c, s, seqs, now);
            Loses(s, o.state, o.removed)
  {
    InvKeys(c, s);
    hide Inv, CleanSender, Loses;
    LosesNothing(s);
    if seqs != [] {
      var before := CleanSenders(c, s, seqs[..|seqs| - 1], now);
      var last := CleanSender(c, before.state, seqs[|seqs| - 1].0, seqs[|seqs| - 1].1, now);
      CleanSendersInv(c, s, seqs[..|seqs| - 1], now);
      CleanConserves(c, s, seqs[..|seqs| - 1], now);
      CleanSenderConserves(c, before.state, seqs[|seqs| - 1].0, seqs[|seqs| - 1].1, now);
      LosesThen(s, before.state, last.state, before.removed, last.removed);
    }
  }
}
