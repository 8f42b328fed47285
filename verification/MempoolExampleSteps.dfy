/** Steps of small example runs, written out: what an insert or a removal does to a pool of a few transactions. */
module MempoolExampleSteps {
  import opened Common
  import opened MempoolTypes
  import opened MempoolState
  import opened MempoolRuns

  /** Two active slots and one queued slot per sender, one tier. */
  ghost const SMALL: Config := Config(2, 1, 1024, 60, [Tier("default", (ctx: Ctx, tx: Tx) => true)])

  /** The sender has nothing below the sequence. */
  lemma NothingStale(s: State, sender: string, seqNo: nat)
    requires sender in s.infos && s.infos[sender].seqNo <= seqNo
    requires forall k {:trigger k in s.active} :: k in s.active && k.sender == sender ==> k.nonce >= seqNo
    requires forall k {:trigger k in s.queued} :: k in s.queued && k.sender == sender ==> k.nonce >= seqNo
    ensures RemoveStale(SetSeq(s, sender, seqNo), sender, seqNo) == Outcome(AtSeq(s, sender, seqNo), [])
  {
    assert CutBelow(s.active, sender, seqNo) == s.active;
    assert CutBelow(s.queued, sender, seqNo) == s.queued;
    NoRun(s.active, sender, seqNo);
    NoRun(s.queued, sender, seqNo);
  }

  lemma {:induction false} NoRun(m: map<Key, Entry>, sender: string, hi: nat)
    requires forall k {:trigger k in m} :: k in m && k.sender == sender ==> k.nonce >= hi
    ensures Run(m, sender, 0, hi) == []
  {
    if hi > 0 {
      NoRun(m, sender, hi - 1);
    }
  }

  ghost function AtSeq(s: State, sender: string, seqNo: nat): State
    requires sender in s.infos
  {
    s.(infos := s.infos[sender := s.infos[sender].(seqNo := seqNo)])
  }

  lemma ChainOfOne(queued: map<Key, Entry>, sender: string, n: nat)
    requires Key(sender, n) in queued && Key(sender, n + 1) !in queued
    ensures Chain(queued, sender, n) == [queued[Key(sender, n)]]
    ensures queued - KeysOf(Chain(queued, sender, n)) == queued - {Key(sender, n)}
       || queued[Key(sender, n)].item.key != Key(sender, n)
  {
    var e := queued[Key(sender, n)];
    assert Chain(queued - {Key(sender, n)}, sender, n + 1) == [];
    assert [e][0] == e;
    assert KeysOf([e]) == {e.item.key};
  }

  lemma StillThere(s: State, k: Key)
    requires k in s.active
    ensures Cleanup(s, k.sender) == s
  {
    assert Key(k.sender, k.nonce) in s.active;
    assert k.nonce in NoncesOf(s.active, k.sender);
  }

  ghost function TxOf(enc: Key -> Bytes, k: Key): Tx { Tx(Some(k), Some(1), Some(enc(k)), true) }

  ghost function It(enc: Key -> Bytes, k: Key, priority: int): Item {
    Item(TxOf(enc, k), k, priority, |enc(k)|, 1, enc(k))
  }

  ghost function Waiter(enc: Key -> Bytes, k: Key, priority: int): Entry {
    Entry(It(enc, k, priority), 0, QUEUED_TIER, Rank(0, 0))
  }

  ghost function Runner(enc: Key -> Bytes, k: Key, priority: int, order: int): Entry {
    Entry(It(enc, k, priority), order, 0, Rank(priority, order))
  }

  lemma StampIs(s: State, ctx: Ctx, enc: Key -> Bytes, k: Key, priority: int)
    requires Clamp(s.active, k, Rank(priority, s.order)) == Rank(priority, s.order)
    ensures Stamp(SMALL, s, ctx, It(enc, k, priority)) == Runner(enc, k, priority, s.order)
  {
    hide Clamp;
    assert TierFrom(SMALL.tiers, 0, ctx.(txBytes := enc(k)), It(enc, k, priority).tx) == 0;
  }

  lemma NoneActive(s: State, sender: string)
    requires sender in s.infos
    requires forall k {:trigger k in s.active} :: k in s.active ==> k.sender != sender
    ensures NoncesOf(s.active, sender) == {}
    ensures Next(s, sender) == s.infos[sender].seqNo
    ensures forall n: nat, raw :: Clamp(s.active, Key(sender, n), raw) == raw
  {
    assert NoncesOf(s.active, sender) == {};
  }

  lemma AdmitsFree(c: Config, s: State, e: Entry)
    requires c.maxTx <= 0 || |s.active| < c.maxTx
    ensures Admit(c, s, None, e, false) == Free
  {
  }

  ghost function Sends(enc: Key -> Bytes, k: Key, priority: int, fetched: Option<nat>): Step {
    DoInsert(Ctx(priority, [], None), TxOf(enc, k), fetched)
  }

  /** A new sender's second transaction waits in the queue. */
  lemma QueuesSecond(s: State, enc: Key -> Bytes, sender: string, priority: int)
    requires sender !in s.infos && |s.queued| < 1024
    requires forall k {:trigger k in s.active} :: k in s.active ==> k.sender != sender
    requires forall k {:trigger k in s.queued} :: k in s.queued ==> k.sender != sender
    ensures Apply(SMALL, s, Sends(enc, Key(sender, 1), priority, Some(0))).state ==
              s.(infos := s.infos[sender := Info(0, None)],
                 queued := s.queued[Key(sender, 1) := Waiter(enc, Key(sender, 1), priority)])
  {
    var s1 := Register(s, sender, 0);
    NoneActive(s1, sender);
    assert NoncesOf(s1.queued, sender) == {};
    hide Next, NoncesOf, EventsOf;
    EnqueuesFirst(s1, Waiter(enc, Key(sender, 1), priority));
    hide Enqueue;
  }

  lemma EnqueuesFirst(s: State, e: Entry)
    requires NoncesOf(s.queued, e.item.key.sender) == {} && |s.queued| < 1024 && e.item.key !in s.queued
    ensures Enqueue(SMALL, s, e) == Queueing(s.(queued := s.queued[e.item.key := e]), Ok, None)
  {
  }

  /** An active insert of a sender without active entries into a pool with room. */
  lemma Activates(s: State, ctx: Ctx, enc: Key -> Bytes, sender: string, priority: int)
    requires sender in s.infos && s.infos[sender].seqNo == 0 && |s.active| < 2 && ctx.block == None
    requires forall k {:trigger k in s.active} :: k in s.active ==> k.sender != sender
    requires Key(sender, 0) !in s.queued
    ensures var e := Runner(enc, Key(sender, 0), priority, s.order + 1);
            InsertItem(SMALL, s, ctx, It(enc, Key(sender, 0), priority)).state ==
              Promote(SMALL, Activate(Tick(s), e), ctx, sender).state
  {
    hide Next, Stamp, Admit, Promote, Clamp, NoncesOf, InsertItem, InsertActive, Runner, It;
    var k := Key(sender, 0);
    NoneActive(s, sender);
    NoneActive(Tick(s), sender);
    StampIs(Tick(s), ctx, enc, k, priority);
    AdmitsFree(SMALL, Tick(s), Runner(enc, k, priority, s.order + 1));
    ItemKey(enc, k, priority);
    RoutesToActive(SMALL, s, ctx, It(enc, k, priority));
    EntersFree(SMALL, s, ctx, It(enc, k, priority));
  }

  lemma ItemKey(enc: Key -> Bytes, k: Key, priority: int)
    ensures It(enc, k, priority).key == k
  {
  }

  lemma RoutesToActive(c: Config, s: State, ctx: Ctx, item: Item)
    requires item.key.sender in s.infos && item.key.nonce == Next(s, item.key.sender)
    ensures InsertItem(c, s, ctx, item) == InsertActive(c, s, ctx, item)
  {
    hide Next, InsertActive, InsertQueued;
  }

  /** An active insert into an unoccupied slot when there is room. */
  lemma EntersFree(c: Config, s: State, ctx: Ctx, item: Item)
    requires item.key.sender in s.infos && item.key !in s.active && item.key !in s.queued
    requires Admit(c, Tick(s), ctx.block, Stamp(c, Tick(s), ctx, item), false) == Free
    ensures InsertActive(c, s, ctx, item).state ==
              Promote(c, Activate(Tick(s), Stamp(c, Tick(s), ctx, item)), ctx, item.key.sender).state
  {
    hide Stamp, Admit, Promote, EventsOf, Occupants;
    Absent(s.active, item.key);
    Absent(s.queued, item.key);
  }

  lemma Absent(m: map<Key, Entry>, k: Key)
    requires k !in m
    ensures m - {k} == m
  {
  }

  lemma PromotesNothing(c: Config, s: State, ctx: Ctx, sender: string)
    requires sender in s.infos && Key(sender, Next(s, sender)) !in s.queued
    ensures Promote(c, s, ctx, sender).state == s
  {
    hide Next;
    var none: seq<Entry> := [];
    assert KeysOf(none) == {};
    assert s.queued - {} == s.queued;
  }

  lemma CursorAfter(s: State, sender: string)
    requires sender in s.infos && s.infos[sender].seqNo == 0 && Key(sender, 0) in s.active
    requires forall k {:trigger k in s.active} :: k in s.active && k.sender == sender ==> k.nonce == 0
    ensures Next(s, sender) == 1
  {
    assert NoncesOf(s.active, sender) == {0};
    assert MaxOf(NoncesOf(s.active, sender)) == 0;
  }

  lemma Commits(s: State, k: Key, rest: map<Key, Entry>)
    requires k.nonce == 0 && k in s.active && k.sender in s.infos && rest == s.active - {k}
    requires forall j {:trigger j in rest} :: j in rest ==> j.sender != k.sender
    requires forall j {:trigger j in s.queued} :: j in s.queued ==> j.sender != k.sender
    ensures RemoveByReason(SMALL, s, k, CommittedInBlock, Some(1)).state ==
              s.(active := rest, infos := s.infos - {k.sender})
  {
    var core := s.(active := rest);
    var t := SetSeq(core, k.sender, 1);
    assert CutBelow(rest, k.sender, 1) == rest;
    assert CutBelow(s.queued, k.sender, 1) == s.queued;
    assert NoncesOf(rest, k.sender) == {} && NoncesOf(s.queued, k.sender) == {};
    assert t.infos - {k.sender} == s.infos - {k.sender};
    hide Run;
  }

  lemma AfterNext(c: Config, steps: seq<Step>, i: nat, s: State, t: State)
    requires i < |steps| && After(c, EMPTY, steps[..i]) == s && Apply(c, s, steps[i]).state == t
    ensures After(c, EMPTY, steps[..i + 1]) == t
  {
    hide Apply;
    assert steps[..i + 1][..i] == steps[..i];
  }

  lemma NoSteps(c: Config, steps: seq<Step>)
    ensures After(c, EMPTY, steps[..0]) == EMPTY
  {
  }

  lemma StillQueued(s: State, k: Key)
    requires k in s.queued
    ensures Cleanup(s, k.sender) == s
  {
    assert Key(k.sender, k.nonce) in s.queued;
    assert k.nonce in NoncesOf(s.queued, k.sender);
  }
}
