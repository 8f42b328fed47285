/** A `PromoteQueued` pass whose event stream misleads its consumer: a transaction promoted early in the pass is demoted
    and dropped later in it, yet its Inserted event comes after its Removed event. */
module MempoolPassExample {
  import opened Common
  import opened MempoolTypes
  import opened MempoolState
  import opened MempoolInvariant
  import opened MempoolPreservation
  import opened MempoolAdmission
  import opened MempoolSections
  import opened MempoolRuns
  import opened MempoolExampleSteps
  import opened MempoolReplay

  ghost const NO_BLOCK := Ctx(0, [], None)

  // ---- one turn with one promotable entry -------------------------------------------------------

  /** A turn that promotes exactly one entry. */
  lemma Turn(c: Config, s: State, ctx: Ctx, sender: string, n: nat, seqNo: nat, e: Entry, adm: Admission)
    requires sender in s.infos && s.infos[sender].seqNo <= seqNo && n == Next(AtSeq(s, sender, seqNo), sender)
    requires forall k {:trigger k in s.active} :: k in s.active && k.sender == sender ==> k.nonce >= seqNo
    requires forall k {:trigger k in s.queued} :: k in s.queued && k.sender == sender ==> k.nonce >= seqNo
    requires var k := Key(sender, n);
             && k in s.queued && s.queued[k].item.key == k && Key(sender, n + 1) !in s.queued
             && var s1 := Tick(AtSeq(s, sender, seqNo).(queued := s.queued - {k}));
             && e == Stamp(c, s1, ctx, s.queued[k].item) && adm == Admit(c, s1, ctx.block, e, false) && !adm.Refused?
    ensures var room := MakeRoom(c, Tick(AtSeq(s, sender, seqNo).(queued := s.queued - {Key(sender, n)})), adm);
            PromoteSender(c, s, ctx, sender, seqNo) == Promotion(Activate(room.state, e), [e], room.removed)
  {
    var k := Key(sender, n);
    var t := AtSeq(s, sender, seqNo).(queued := s.queued - {k});
    var room := MakeRoom(c, Tick(t), adm);
    NothingStale(s, sender, seqNo);
    ChainOfOne(s.queued, sender, n);
    assert e.item.key == k;
    hide Stamp, Admit, MakeRoom, Next, RemoveStale, SetSeq, Chain;
    var es := [s.queued[k]];
    assert es[1..] == [];
    assert PromoteAll(c, t, ctx, es) == Promotion(Activate(room.state, e), [e], room.removed);
    StillThere(Activate(room.state, e), k);
    assert [] + room.removed == room.removed;
  }

  // ---- the example ------------------------------------------------------------------------------

  ghost predicate Distinct(a: string, b: string, d: string, x: string) {
    a != b && a != d && b != d && x != a && x != b && x != d
  }

  ghost function Infos(a: string, b: string, d: string, seqB: nat, seqD: nat): map<string, Info> {
    map[a := Info(0, None), b := Info(seqB, None), d := Info(seqD, None)]
  }

  /** Sender `a` has one active and one queued transaction, put back when the pool was full; `b` and `d` wait for their
      first nonces to be committed, with better transactions. */
  ghost function Start(enc: Key -> Bytes, a: string, b: string, d: string): State {
    State(Infos(a, b, d, 0, 0),
          map[Key(a, 0) := Runner(enc, Key(a, 0), 1, 2)],
          map[Key(a, 1) := Runner(enc, Key(a, 1), 1, 3),
              Key(b, 1) := Waiter(enc, Key(b, 1), 5),
              Key(d, 1) := Waiter(enc, Key(d, 1), 6)],
          3)
  }

  ghost function Mid(enc: Key -> Bytes, a: string, b: string, d: string): State {
    State(Infos(a, b, d, 0, 0),
          map[Key(a, 0) := Runner(enc, Key(a, 0), 1, 2), Key(a, 1) := Runner(enc, Key(a, 1), 1, 4)],
          map[Key(b, 1) := Waiter(enc, Key(b, 1), 5), Key(d, 1) := Waiter(enc, Key(d, 1), 6)],
          4)
  }

  ghost function Late(enc: Key -> Bytes, a: string, b: string, d: string): State {
    State(Infos(a, b, d, 1, 0),
          map[Key(a, 0) := Runner(enc, Key(a, 0), 1, 2), Key(b, 1) := Runner(enc, Key(b, 1), 5, 5)],
          map[Key(a, 1) := AsQueued(Runner(enc, Key(a, 1), 1, 4)), Key(d, 1) := Waiter(enc, Key(d, 1), 6)],
          5)
  }

  ghost function End(enc: Key -> Bytes, a: string, b: string, d: string): State {
    State(Infos(a, b, d, 1, 1),
          map[Key(b, 1) := Runner(enc, Key(b, 1), 5, 5), Key(d, 1) := Runner(enc, Key(d, 1), 6, 6)],
          map[Key(a, 0) := AsQueued(Runner(enc, Key(a, 0), 1, 2))],
          6)
  }

  lemma AdmitsEvict(s: State, e: Entry, v: Entry)
    requires |s.active| == 2 && IsLast(s.active, v) && Outranks(e.clamped, v.clamped)
    ensures Admit(SMALL, s, None, e, false) == Evict(v)
  {
    LastUnique(s.active, Last(s.active), v);
    assert v.item.key in s.active;
  }

  // Small maps.

  lemma DropOfTwo<V>(j: Key, u: V, k: Key, v: V)
    requires j != k
    ensures map[j := u, k := v] - {j} == map[k := v]
    ensures map[j := u, k := v] - {k} == map[j := u]
  {
  }

  lemma PutSecond<V>(j: Key, u: V, k: Key, v: V)
    requires j != k
    ensures map[j := u][k := v] == map[j := u, k := v] == map[k := v][j := u]
  {
  }

  lemma DropOfThree<V>(i: Key, t: V, j: Key, u: V, k: Key, v: V)
    requires i != j && i != k && j != k
    ensures map[i := t, j := u, k := v] - {i} == map[j := u, k := v]
    ensures map[i := t][j := u][k := v] == map[i := t, j := u, k := v]
  {
  }

  lemma PutInfos(a: string, b: string, d: string, n: nat)
    requires a != b && a != d && b != d
    ensures Infos(a, b, d, 0, 0)[a := Info(0, None)] == Infos(a, b, d, 0, 0)
    ensures Infos(a, b, d, 0, 0)[b := Info(n, None)] == Infos(a, b, d, n, 0)
    ensures Infos(a, b, d, n, 0)[d := Info(n, None)] == Infos(a, b, d, n, n)
  {
  }

  // The first turn: there is room for a's queued transaction.

  lemma CursorA(enc: Key -> Bytes, a: string, b: string, d: string)
    requires a != b && a != d && b != d
    ensures var s := Start(enc, a, b, d);
            && a in s.infos && AtSeq(s, a, 0) == s && Next(s, a) == 1 && s.infos[a].seqNo == 0
            && Clamp(s.active, Key(a, 1), Rank(1, 4)) == Rank(1, 4)
            && |s.active| == 1
  {
    var s := Start(enc, a, b, d);
    assert s.infos[a := Info(0, None)] == s.infos;
    assert Key(a, 0) in s.active;
    assert NoncesOf(s.active, a) == {0};
    assert MaxOf(NoncesOf(s.active, a)) == 0;
  }

  lemma StateA(enc: Key -> Bytes, a: string, b: string, d: string)
    requires a != b && a != d && b != d
    ensures var s := Start(enc, a, b, d);
            && Key(a, 1) in s.queued && s.queued[Key(a, 1)] == Runner(enc, Key(a, 1), 1, 3) && Key(a, 2) !in s.queued
            && Activate(Tick(s.(queued := s.queued - {Key(a, 1)})), Runner(enc, Key(a, 1), 1, 4)) == Mid(enc, a, b, d)
  {
    PutSecond(Key(a, 0), Runner(enc, Key(a, 0), 1, 2), Key(a, 1), Runner(enc, Key(a, 1), 1, 4));
    DropOfThree(Key(a, 1), Runner(enc, Key(a, 1), 1, 3), Key(b, 1), Waiter(enc, Key(b, 1), 5),
                Key(d, 1), Waiter(enc, Key(d, 1), 6));
    hide Waiter;
  }

  lemma TurnA(enc: Key -> Bytes, a: string, b: string, d: string)
    requires a != b && a != d && b != d
    ensures PromoteSender(SMALL, Start(enc, a, b, d), NO_BLOCK, a, 0)
         == Promotion(Mid(enc, a, b, d), [Runner(enc, Key(a, 1), 1, 4)], [])
  {
    hide Next, Clamp, Stamp, Admit, PromoteSender, AtSeq;
    var s := Start(enc, a, b, d);
    var k := Key(a, 1);
    var s1 := Tick(s.(queued := s.queued - {k}));
    CursorA(enc, a, b, d);
    StateA(enc, a, b, d);
    hide Start, Mid;
    assert s.order == 3;
    StampIs(s1, NO_BLOCK, enc, k, 1);
    AdmitsFree(SMALL, s1, Runner(enc, k, 1, 4));
    Turn(SMALL, s, NO_BLOCK, a, 1, 0, Runner(enc, k, 1, 4), Free);
  }

  /** Evicting the last entry, written out. */
  lemma EvictIs(s: State, v: Entry)
    requires Inv(SMALL, s) && IsLast(s.active, v) && v.item.key.sender in s.infos
    ensures var q := Enqueue(SMALL, s.(active := s.active - {v.item.key}), AsQueued(v));
            q.error == Ok ==>
              MakeRoom(SMALL, s, Evict(v)) == Outcome(q.state, if q.evicted.Some? then [q.evicted.value] else [])
  {
    hide Inv, Demote, IsLast, Enqueue, NoncesOf;
    EvictDemotesOne(SMALL, s, v);
    var t := s.(active := s.active - {v.item.key});
    var q := Enqueue(SMALL, t, AsQueued(v));
    assert [v][..0] == [];
    assert EnqueueAll(SMALL, t, []) == Outcome(t, []);
    assert EnqueueAll(SMALL, t, [v]) == Outcome(q.state, [] + Displaced(q, AsQueued(v)));
    if q.error == Ok {
      EnqueuedThere(SMALL, t, AsQueued(v));
      StillQueued(q.state, v.item.key);
      assert [] + Displaced(q, AsQueued(v)) == if q.evicted.Some? then [q.evicted.value] else [];
    }
  }

  // The second turn: b's transaction pushes a's second one back into a's queue, which has room.

  lemma SetupB(enc: Key -> Bytes, a: string, b: string, d: string)
    requires a != b && a != d && b != d
    ensures var s := Mid(enc, a, b, d);
            && b in s.infos && a in s.infos && s.order == 4
            && Key(b, 1) in s.queued && s.queued[Key(b, 1)] == Waiter(enc, Key(b, 1), 5) && Key(b, 2) !in s.queued
            && |s.active| == 2 && IsLast(s.active, Runner(enc, Key(a, 1), 1, 4))
            && s.infos[b].seqNo == 0
            && (forall k {:trigger k in s.active} :: k in s.active ==> k.sender != b)
            && (forall k {:trigger k in s.queued} :: k in s.queued ==> k.nonce >= 1)
  {
    var s := Mid(enc, a, b, d);
    assert s.active.Keys == {Key(a, 0), Key(a, 1)};
    assert |s.active| == |s.active.Keys|;
  }

  lemma RoomB(enc: Key -> Bytes, a: string, b: string, d: string)
    requires a != b && a != d && b != d
    ensures var m := Mid(enc, a, b, d);
            b in m.infos &&
            var s := Tick(AtSeq(m, b, 1).(queued := m.queued - {Key(b, 1)}));
            var v := Runner(enc, Key(a, 1), 1, 4);
            var q := Enqueue(SMALL, s.(active := s.active - {Key(a, 1)}), AsQueued(v));
            && q.error == Ok && q.evicted.None?
            && Activate(q.state, Runner(enc, Key(b, 1), 5, 5)) == Late(enc, a, b, d)
  {
    var m := Mid(enc, a, b, d);
    var s := Tick(AtSeq(m, b, 1).(queued := m.queued - {Key(b, 1)}));
    StateB(enc, a, b, d);
    assert NoncesOf(s.queued, a) == {};
    assert |s.queued| == 1;
  }

  lemma StateB(enc: Key -> Bytes, a: string, b: string, d: string)
    requires a != b && a != d && b != d
    ensures var s := Mid(enc, a, b, d);
            && s.queued - {Key(b, 1)} == map[Key(d, 1) := Waiter(enc, Key(d, 1), 6)]
            && (s.queued - {Key(b, 1)})[Key(a, 1) := AsQueued(Runner(enc, Key(a, 1), 1, 4))]
                 == Late(enc, a, b, d).queued
            && (s.active - {Key(a, 1)})[Key(b, 1) := Runner(enc, Key(b, 1), 5, 5)] == Late(enc, a, b, d).active
            && b in s.infos && AtSeq(s, b, 1).infos == Late(enc, a, b, d).infos
  {
    hide Runner, Waiter;
    DropOfTwo(Key(b, 1), Waiter(enc, Key(b, 1), 5), Key(d, 1), Waiter(enc, Key(d, 1), 6));
    DropOfTwo(Key(a, 0), Runner(enc, Key(a, 0), 1, 2), Key(a, 1), Runner(enc, Key(a, 1), 1, 4));
    PutSecond(Key(d, 1), Waiter(enc, Key(d, 1), 6), Key(a, 1), AsQueued(Runner(enc, Key(a, 1), 1, 4)));
    PutSecond(Key(a, 0), Runner(enc, Key(a, 0), 1, 2), Key(b, 1), Runner(enc, Key(b, 1), 5, 5));
    PutInfos(a, b, d, 1);
  }

  lemma TurnB(enc: Key -> Bytes, a: string, b: string, d: string)
    requires a != b && a != d && b != d && Inv(SMALL, Mid(enc, a, b, d))
    ensures PromoteSender(SMALL, Mid(enc, a, b, d), NO_BLOCK, b, 1)
         == Promotion(Late(enc, a, b, d), [Runner(enc, Key(b, 1), 5, 5)], [])
  {
    hide Inv, Next, Clamp, Stamp, Admit, PromoteSender, Mid, Late, MakeRoom, Enqueue, IsLast, NoncesOf;
    var s := Mid(enc, a, b, d);
    var k := Key(b, 1);
    SetupB(enc, a, b, d);
    var t := AtSeq(s, b, 1);
    var s1 := Tick(t.(queued := s.queued - {k}));
    var v := Runner(enc, Key(a, 1), 1, 4);
    var e := Runner(enc, k, 5, 5);
    NoneActive(t, b);
    StampIs(s1, NO_BLOCK, enc, k, 5);
    AdmitsEvict(s1, e, v);
    Turn(SMALL, s, NO_BLOCK, b, 1, 1, e, Evict(v));
    AtSeqInv(SMALL, s, b, 1);
    DropQueuedInv(SMALL, t, {k});
    TickInv(SMALL, t.(queued := s.queued - {k}));
    EvictIs(s1, v);
    RoomB(enc, a, b, d);
  }

  lemma AtSeqInv(c: Config, s: State, sender: string, seqNo: nat)
    requires Inv(c, s) && sender in s.infos && s.infos[sender].seqNo <= seqNo
    requires forall k {:trigger k in s.active} :: k in s.active && k.sender == sender ==> k.nonce >= seqNo
    requires forall k {:trigger k in s.queued} :: k in s.queued && k.sender == sender ==> k.nonce >= seqNo
    ensures Inv(c, AtSeq(s, sender, seqNo))
  {
    StaleInv(c, s, sender, seqNo);
    NothingStale(s, sender, seqNo);
    hide Inv, RemoveStale, SetSeq;
  }

  // The third turn: d's transaction pushes a's first one back, and a's queue drops its highest nonce.

  lemma SetupD(enc: Key -> Bytes, a: string, b: string, d: string)
    requires a != b && a != d && b != d
    ensures var s := Late(enc, a, b, d);
            && d in s.infos && a in s.infos && s.order == 5
            && Key(d, 1) in s.queued && s.queued[Key(d, 1)] == Waiter(enc, Key(d, 1), 6) && Key(d, 2) !in s.queued
            && |s.active| == 2 && IsLast(s.active, Runner(enc, Key(a, 0), 1, 2))
            && s.infos[d].seqNo == 0
            && (forall k {:trigger k in s.active} :: k in s.active ==> k.sender != d)
            && (forall k {:trigger k in s.queued} :: k in s.queued ==> k.nonce >= 1)
  {
    var s := Late(enc, a, b, d);
    assert s.active.Keys == {Key(a, 0), Key(b, 1)};
    assert |s.active| == |s.active.Keys|;
  }

  lemma StateD(enc: Key -> Bytes, a: string, b: string, d: string)
    requires a != b && a != d && b != d
    ensures var s := Late(enc, a, b, d);
            var w := AsQueued(Runner(enc, Key(a, 1), 1, 4));
            && s.queued - {Key(d, 1)} == map[Key(a, 1) := w]
            && (map[Key(a, 1) := w] - {Key(a, 1)})[Key(a, 0) := AsQueued(Runner(enc, Key(a, 0), 1, 2))]
                 == End(enc, a, b, d).queued
            && (s.active - {Key(a, 0)})[Key(d, 1) := Runner(enc, Key(d, 1), 6, 6)] == End(enc, a, b, d).active
            && d in s.infos && AtSeq(s, d, 1).infos == End(enc, a, b, d).infos
  {
    hide Runner, Waiter;
    var w := AsQueued(Runner(enc, Key(a, 1), 1, 4));
    DropOfTwo(Key(a, 1), w, Key(d, 1), Waiter(enc, Key(d, 1), 6));
    DropOfTwo(Key(a, 0), Runner(enc, Key(a, 0), 1, 2), Key(b, 1), Runner(enc, Key(b, 1), 5, 5));
    PutSecond(Key(b, 1), Runner(enc, Key(b, 1), 5, 5), Key(d, 1), Runner(enc, Key(d, 1), 6, 6));
    PutInfos(a, b, d, 1);
    assert map[Key(a, 1) := w] - {Key(a, 1)} == map[];
  }

  lemma RoomD(enc: Key -> Bytes, a: string, b: string, d: string)
    requires a != b && a != d && b != d
    ensures var m := Late(enc, a, b, d);
            d in m.infos &&
            var s := Tick(AtSeq(m, d, 1).(queued := m.queued - {Key(d, 1)}));
            var v := Runner(enc, Key(a, 0), 1, 2);
            var q := Enqueue(SMALL, s.(active := s.active - {Key(a, 0)}), AsQueued(v));
            && q.error == Ok && q.evicted == Some(AsQueued(Runner(enc, Key(a, 1), 1, 4)))
            && Activate(q.state, Runner(enc, Key(d, 1), 6, 6)) == End(enc, a, b, d)
  {
    var m := Late(enc, a, b, d);
    StateD(enc, a, b, d);
    var s := Tick(AtSeq(m, d, 1).(queued := m.queued - {Key(d, 1)}));
    assert Key(a, 1) in s.queued;
    assert NoncesOf(s.queued, a) == {1};
    assert MaxOf(NoncesOf(s.queued, a)) == 1;
  }

  lemma TurnD(enc: Key -> Bytes, a: string, b: string, d: string)
    requires a != b && a != d && b != d && Inv(SMALL, Late(enc, a, b, d))
    ensures PromoteSender(SMALL, Late(enc, a, b, d), NO_BLOCK, d, 1)
         == Promotion(End(enc, a, b, d), [Runner(enc, Key(d, 1), 6, 6)], [AsQueued(Runner(enc, Key(a, 1), 1, 4))])
  {
    hide Inv, Next, Clamp, Stamp, Admit, PromoteSender, Late, End, MakeRoom, Enqueue, IsLast, NoncesOf;
    var s := Late(enc, a, b, d);
    var k := Key(d, 1);
    SetupD(enc, a, b, d);
    var t := AtSeq(s, d, 1);
    var s1 := Tick(t.(queued := s.queued - {k}));
    var v := Runner(enc, Key(a, 0), 1, 2);
    var e := Runner(enc, k, 6, 6);
    NoneActive(t, d);
    StampIs(s1, NO_BLOCK, enc, k, 6);
    AdmitsEvict(s1, e, v);
    Turn(SMALL, s, NO_BLOCK, d, 1, 1, e, Evict(v));
    AtSeqInv(SMALL, s, d, 1);
    DropQueuedInv(SMALL, t, {k});
    TickInv(SMALL, t.(queued := s.queued - {k}));
    EvictIs(s1, v);
    RoomD(enc, a, b, d);
  }

  // ---- the whole pass ---------------------------------------------------------------------------

  ghost function Turns(a: string, b: string, d: string): seq<(string, nat)> { [(a, 0), (b, 1), (d, 1)] }

  lemma Pass(enc: Key -> Bytes, a: string, b: string, d: string)
    requires a != b && a != d && b != d && Inv(SMALL, Start(enc, a, b, d))
    ensures PromoteSenders(SMALL, Start(enc, a, b, d), NO_BLOCK, Turns(a, b, d))
         == Promotion(End(enc, a, b, d),
                      [Runner(enc, Key(a, 1), 1, 4), Runner(enc, Key(b, 1), 5, 5), Runner(enc, Key(d, 1), 6, 6)],
                      [AsQueued(Runner(enc, Key(a, 1), 1, 4))])
  {
    hide Inv, PromoteSender, Start, Mid, Late, End, AsQueued;
    var s := Start(enc, a, b, d);
    var turns := Turns(a, b, d);
    TurnA(enc, a, b, d);
    PromoteSenderInv(SMALL, s, NO_BLOCK, a, 0);
    TurnB(enc, a, b, d);
    PromoteSenderInv(SMALL, Mid(enc, a, b, d), NO_BLOCK, b, 1);
    TurnD(enc, a, b, d);
    var none: seq<(string, nat)> := [];
    var one: seq<(string, nat)> := [(a, 0)];
    assert turns[..2][..1] == one && one[..0] == none;
    assert PromoteSenders(SMALL, s, NO_BLOCK, none) == Promotion(s, [], []);
    assert PromoteSenders(SMALL, s, NO_BLOCK, one) == Promotion(Mid(enc, a, b, d), [Runner(enc, Key(a, 1), 1, 4)], []);
    assert PromoteSenders(SMALL, s, NO_BLOCK, turns[..2])
        == Promotion(Late(enc, a, b, d), [Runner(enc, Key(a, 1), 1, 4), Runner(enc, Key(b, 1), 5, 5)], []);
  }

  // ---- how the pool gets there ------------------------------------------------------------------

  ghost function First(enc: Key -> Bytes, x: string): State {
    State(map[x := Info(0, None)], map[Key(x, 0) := Runner(enc, Key(x, 0), 9, 1)], map[], 1)
  }

  lemma ReachFirst(enc: Key -> Bytes, x: string)
    ensures Apply(SMALL, EMPTY, Sends(enc, Key(x, 0), 9, Some(0))).state == First(enc, x)
  {
    var s := Register(EMPTY, x, 0);
    var ctx := Ctx(9, enc(Key(x, 0)), None);
    var t := Activate(Tick(s), Runner(enc, Key(x, 0), 9, 1));
    assert t == First(enc, x);
    Activates(s, ctx, enc, x, 9);
    CursorAfter(t, x);
    PromotesNothing(SMALL, t, ctx, x);
    hide InsertItem, Promote, Next;
  }

  /** With both slots taken, a's second transaction returns to the queue. */
  ghost function Full(enc: Key -> Bytes, a: string, x: string): State {
    State(map[x := Info(0, None), a := Info(0, None)],
          map[Key(x, 0) := Runner(enc, Key(x, 0), 9, 1), Key(a, 0) := Runner(enc, Key(a, 0), 1, 2)],
          map[Key(a, 1) := Runner(enc, Key(a, 1), 1, 3)], 3)
  }

  ghost function Second(enc: Key -> Bytes, a: string, x: string): State {
    State(map[x := Info(0, None), a := Info(0, None)],
          map[Key(x, 0) := Runner(enc, Key(x, 0), 9, 1)],
          map[Key(a, 1) := Waiter(enc, Key(a, 1), 1)], 1)
  }

  /** a's first transaction is in, and its second one is being promoted. */
  ghost function Trying(enc: Key -> Bytes, a: string, x: string): State {
    Activate(Tick(Second(enc, a, x)), Runner(enc, Key(a, 0), 1, 2))
  }

  lemma TryingShape(enc: Key -> Bytes, a: string, x: string)
    requires a != x
    ensures var t := Trying(enc, a, x);
            && t.active == map[Key(x, 0) := Runner(enc, Key(x, 0), 9, 1), Key(a, 0) := Runner(enc, Key(a, 0), 1, 2)]
            && |t.active| == 2 && IsLast(t.active, Runner(enc, Key(a, 0), 1, 2))
            && t.queued == map[Key(a, 1) := Waiter(enc, Key(a, 1), 1)] && t.order == 2
            && a in t.infos && Next(t, a) == 1
            && Clamp(t.active, Key(a, 1), Rank(1, 3)) == Rank(1, 3)
  {
    var t := Trying(enc, a, x);
    assert t.active.Keys == {Key(x, 0), Key(a, 0)};
    assert |t.active| == |t.active.Keys|;
    CursorAfter(t, a);
  }

  lemma AdmitsNot(s: State, e: Entry, v: Entry)
    requires |s.active| == 2 && IsLast(s.active, v) && !Outranks(e.clamped, v.clamped)
    ensures Admit(SMALL, s, None, e, false) == Refused
  {
    LastUnique(s.active, Last(s.active), v);
    assert v.item.key in s.active;
  }

  lemma PromotionRefused(enc: Key -> Bytes, ctx: Ctx, a: string, x: string)
    requires a != x && ctx.block == None
    ensures Promote(SMALL, Trying(enc, a, x), ctx, a).state == Full(enc, a, x)
  {
    hide Next, Clamp, Stamp, Admit, IsLast, MakeRoom;
    var t := Trying(enc, a, x);
    var k := Key(a, 1);
    var w := Waiter(enc, k, 1);
    var e := Runner(enc, k, 1, 3);
    TryingShape(enc, a, x);
    ChainOfOne(t.queued, a, 1);
    assert t.queued - {k} == map[];
    var u := t.(queued := map[]);
    StampIs(Tick(u), ctx, enc, k, 1);
    AdmitsNot(Tick(u), e, Runner(enc, Key(a, 0), 1, 2));
    var es := [w];
    assert es[1..] == [] && [e] + es[1..] == [e] && [e][..0] == [];
    var empty: map<Key, Entry> := map[];
    assert Requeue(empty, []) == empty;
    assert Requeue(empty, [e]) == map[k := e];
    assert PromoteAll(SMALL, u, ctx, es).state == Tick(u).(queued := map[k := e]);
    assert Full(enc, a, x) == Tick(u).(queued := map[k := e]);
  }

  lemma ReachFull(enc: Key -> Bytes, a: string, x: string)
    requires a != x
    ensures Apply(SMALL, Second(enc, a, x), Sends(enc, Key(a, 0), 1, None)).state == Full(enc, a, x)
  {
    var ctx := Ctx(1, enc(Key(a, 0)), None);
    Activates(Second(enc, a, x), ctx, enc, a, 1);
    PromotionRefused(enc, ctx, a, x);
    hide InsertItem, Promote;
  }

  ghost function Waits(enc: Key -> Bytes, s: State, sender: string, priority: int): State {
    s.(infos := s.infos[sender := Info(0, None)],
       queued := s.queued[Key(sender, 1) := Waiter(enc, Key(sender, 1), priority)])
  }

  lemma ReachSecond(enc: Key -> Bytes, a: string, x: string)
    requires a != x
    ensures Apply(SMALL, First(enc, x), Sends(enc, Key(a, 1), 1, Some(0))).state == Second(enc, a, x)
  {
    hide Apply;
    QueuesSecond(First(enc, x), enc, a, 1);
    assert Waits(enc, First(enc, x), a, 1) == Second(enc, a, x);
  }

  lemma ReachWaits(enc: Key -> Bytes, a: string, b: string, d: string, x: string)
    requires Distinct(a, b, d, x)
    ensures var s := Full(enc, a, x);
            && Apply(SMALL, s, Sends(enc, Key(b, 1), 5, Some(0))).state == Waits(enc, s, b, 5)
            && Apply(SMALL, Waits(enc, s, b, 5), Sends(enc, Key(d, 1), 6, Some(0))).state ==
                 Waits(enc, Waits(enc, s, b, 5), d, 6)
  {
    hide Apply;
    QueuesSecond(Full(enc, a, x), enc, b, 5);
    QueuesSecond(Waits(enc, Full(enc, a, x), b, 5), enc, d, 6);
  }

  /** Committing x's transaction frees a slot and forgets x. */
  lemma ReachStart(enc: Key -> Bytes, a: string, b: string, d: string, x: string)
    requires Distinct(a, b, d, x)
    ensures var s := Waits(enc, Waits(enc, Full(enc, a, x), b, 5), d, 6);
            Apply(SMALL, s, DoRemove(TxOf(enc, Key(x, 0)), CommittedInBlock)).state == Start(enc, a, b, d)
  {
    hide RemoveByReason, EventsOf, Waits, Full, Start, Runner, Waiter;
    StartParts(enc, a, b, d, x);
    Commits(Waits(enc, Waits(enc, Full(enc, a, x), b, 5), d, 6), Key(x, 0), Start(enc, a, b, d).active);
  }

  lemma StartParts(enc: Key -> Bytes, a: string, b: string, d: string, x: string)
    requires Distinct(a, b, d, x)
    ensures var s := Waits(enc, Waits(enc, Full(enc, a, x), b, 5), d, 6);
            var t := Start(enc, a, b, d);
            && Key(x, 0) in s.active && x in s.infos && s.active - {Key(x, 0)} == t.active
            && s.infos - {x} == t.infos && s.queued == t.queued && s.order == t.order
            && (forall j {:trigger j in t.active} :: j in t.active ==> j.sender != x)
            && (forall j {:trigger j in s.queued} :: j in s.queued ==> j.sender != x)
  {
    hide Runner, Waiter;
    DropOfTwo(Key(x, 0), Runner(enc, Key(x, 0), 9, 1), Key(a, 0), Runner(enc, Key(a, 0), 1, 2));
    DropOfThree(Key(a, 1), Runner(enc, Key(a, 1), 1, 3), Key(b, 1), Waiter(enc, Key(b, 1), 5),
                Key(d, 1), Waiter(enc, Key(d, 1), 6));
    ForgetFirst(a, b, d, x);
  }

  lemma ForgetFirst(a: string, b: string, d: string, x: string)
    requires Distinct(a, b, d, x)
    ensures var none := Info(0, None);
            map[x := none, a := none][b := none][d := none] - {x} == Infos(a, b, d, 0, 0)
  {
  }

  ghost function Setup(enc: Key -> Bytes, a: string, b: string, d: string, x: string): seq<Step> {
    [Sends(enc, Key(x, 0), 9, Some(0)), Sends(enc, Key(a, 1), 1, Some(0)), Sends(enc, Key(a, 0), 1, None),
     Sends(enc, Key(b, 1), 5, Some(0)), Sends(enc, Key(d, 1), 6, Some(0)),
     DoRemove(TxOf(enc, Key(x, 0)), CommittedInBlock)]
  }

  /** The six steps lead from the empty pool to the start of the pass. */
  lemma SetupReaches(enc: Key -> Bytes, a: string, b: string, d: string, x: string)
    requires Distinct(a, b, d, x)
    ensures After(SMALL, EMPTY, Setup(enc, a, b, d, x)) == Start(enc, a, b, d)
  {
    hide Apply, Start, Full, First, Second, Waits, Sends, After;
    var steps := Setup(enc, a, b, d, x);
    NoSteps(SMALL, steps);
    ReachFirst(enc, x);
    AfterNext(SMALL, steps, 0, EMPTY, First(enc, x));
    ReachSecond(enc, a, x);
    AfterNext(SMALL, steps, 1, First(enc, x), Second(enc, a, x));
    ReachFull(enc, a, x);
    var s := Full(enc, a, x);
    AfterNext(SMALL, steps, 2, Second(enc, a, x), s);
    ReachWaits(enc, a, b, d, x);
    AfterNext(SMALL, steps, 3, s, Waits(enc, s, b, 5));
    AfterNext(SMALL, steps, 4, Waits(enc, s, b, 5), Waits(enc, Waits(enc, s, b, 5), d, 6));
    ReachStart(enc, a, b, d, x);
    AfterNext(SMALL, steps, 5, Waits(enc, Waits(enc, s, b, 5), d, 6), Start(enc, a, b, d));
    assert steps[..6] == steps;
  }

  // ---- what the events say ----------------------------------------------------------------------

  lemma {:induction false} NoPassIsKept(c: Config, steps: seq<Step>)
    requires forall i {:trigger steps[i]} :: 0 <= i < |steps| ==> !steps[i].DoPromote?
    ensures KeptRun(c, EMPTY, steps)
  {
    hide Apply, PromotedKept;
    if steps != [] {
      var init := steps[..|steps| - 1];
      assert forall i {:trigger init[i]} :: 0 <= i < |init| ==> init[i] == steps[i];
      NoPassIsKept(c, init);
      assert !steps[|steps| - 1].DoPromote?;
    }
  }

  lemma EndPool(enc: Key -> Bytes, keyOf: Bytes -> Key, a: string, b: string, d: string)
    requires a != b && a != d && b != d && (forall k :: keyOf(enc(k)) == k)
    ensures enc(Key(a, 1)) !in Pooled(End(enc, a, b, d))
  {
    assert keyOf(enc(Key(a, 1))) == Key(a, 1);
    var s := End(enc, a, b, d);
    forall k | k in s.active ensures s.active[k].item.bytes != enc(Key(a, 1)) {
      assert keyOf(enc(k)) == k;
    }
    forall k | k in s.queued ensures s.queued[k].item.bytes != enc(Key(a, 1)) {
      assert keyOf(enc(k)) == k;
    }
  }

  /** A run from the empty pool that ends with a pass which promotes a's second transaction and later drops it; folding
      the run's events claims it is still pooled. */
  lemma PassMisleads(enc: Key -> Bytes, keyOf: Bytes -> Key, a: string, b: string, d: string, x: string)
    requires Distinct(a, b, d, x) && (forall k :: keyOf(enc(k)) == k)
    ensures var setup := Setup(enc, a, b, d, x);
            var steps := setup + [DoPromote(NO_BLOCK, Turns(a, b, d), [])];
            && SafeRun(SMALL, EMPTY, steps) && NamedRun(keyOf, steps)
            && Replay({}, Produced(SMALL, EMPTY, setup)) == Pooled(After(SMALL, EMPTY, setup))
            && Replay({}, Produced(SMALL, EMPTY, steps)) != Pooled(After(SMALL, EMPTY, steps))
            && enc(Key(a, 1)) !in Pooled(After(SMALL, EMPTY, steps))
  {
    hide Inv, Apply, PromoteSenders, SafeRun, Start, End, Named, Pooled, Replay, BytesOf, PassPromoted, After;
    var setup := Setup(enc, a, b, d, x);
    var step := DoPromote(NO_BLOCK, Turns(a, b, d), []);
    var steps := setup + [step];
    var s := Start(enc, a, b, d);
    assert SMALL.Valid();
    SingleTierRunInv(SMALL, setup);
    SingleTierRunInv(SMALL, steps);
    SetupReaches(enc, a, b, d, x);
    NoPassIsKept(SMALL, setup);
    RunReplays(SMALL, setup, keyOf);
    Pass(enc, a, b, d);
    EndPool(enc, keyOf, a, b, d);
    Dropped(enc, s, step, End(enc, a, b, d), a, b, d);
    StepReplays(SMALL, s, step, keyOf);
    assert steps[..|steps| - 1] == setup;
    AfterLast(SMALL, setup, step);
    ReplayJoin({}, Produced(SMALL, EMPTY, setup), Apply(SMALL, s, step).events);
  }

  lemma AfterLast(c: Config, steps: seq<Step>, step: Step)
    ensures After(c, EMPTY, steps + [step]) == Apply(c, After(c, EMPTY, steps), step).state
    ensures Produced(c, EMPTY, steps + [step]) ==
              Produced(c, EMPTY, steps) + Apply(c, After(c, EMPTY, steps), step).events
  {
    hide Apply;
    assert (steps + [step])[..|steps|] == steps;
  }

  lemma Dropped(enc: Key -> Bytes, s: State, step: Step, end: State, a: string, b: string, d: string)
    requires step == DoPromote(NO_BLOCK, Turns(a, b, d), []) && enc(Key(a, 1)) !in Pooled(end)
    requires var p := PromoteSenders(SMALL, s, NO_BLOCK, Turns(a, b, d));
             p.state == end && |p.promoted| > 0 && p.promoted[0] == Runner(enc, Key(a, 1), 1, 4)
    ensures Apply(SMALL, s, step).state == end && !PromotedKept(SMALL, s, step)
  {
    hide PromoteSenders, Pooled, BytesOf, EventsOf;
    var e := Runner(enc, Key(a, 1), 1, 4);
    assert PassPromoted(SMALL, s, step)[0] == e;
    assert e.item.bytes in BytesOf(PassPromoted(SMALL, s, step));
  }
}
