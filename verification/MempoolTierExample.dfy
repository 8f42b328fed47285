/** With several tiers the rank order can be lost: a run of three inserts after which a sender's second transaction
    ranks before its first. */
module MempoolTierExample {
  import opened Common
  import opened MempoolTypes
  import opened MempoolState
  import opened MempoolInvariant
  import opened MempoolRuns
  import opened MempoolPromotion
  import opened MempoolExampleSteps

  /** Two tiers: transactions with the queue extension come first. */
  ghost const TWO_TIERS: Config :=
    Config(0, 64, 1024, 60,
           [Tier("first", (ctx: Ctx, tx: Tx) => tx.queuedExt), Tier("default", (ctx: Ctx, tx: Tx) => true)])

  ghost function TierTx(enc: (Key, bool) -> Bytes, k: Key, first: bool): Tx {
    Tx(Some(k), Some(1), Some(enc(k, first)), first)
  }

  ghost function Sample(enc: (Key, bool) -> Bytes, k: Key, priority: int, first: bool): Item {
    Item(TierTx(enc, k, first), k, priority, |enc(k, first)|, 1, enc(k, first))
  }

  ghost function Sends(enc: (Key, bool) -> Bytes, k: Key, priority: int, first: bool, fetched: Option<nat>): Step {
    DoInsert(Ctx(priority, [], None), TierTx(enc, k, first), fetched)
  }

  ghost function Better(enc: (Key, bool) -> Bytes, k: Key, order: int): Entry {
    Entry(Sample(enc, k, 10, true), order, 0, Rank(10, order))
  }

  ghost function OneActive(enc: (Key, bool) -> Bytes, sender: string): State {
    State(map[sender := Info(0, None)], map[Key(sender, 0) := Better(enc, Key(sender, 0), 1)], map[], 1)
  }

  /** A sender with two active transactions of the first tier, both of priority 10. */
  ghost function TwoActive(enc: (Key, bool) -> Bytes, sender: string): State {
    State(map[sender := Info(0, None)],
          map[Key(sender, 0) := Better(enc, Key(sender, 0), 1), Key(sender, 1) := Better(enc, Key(sender, 1), 2)],
          map[], 2)
  }

  // ---- the first two inserts --------------------------------------------------------------------

  lemma StampsFirst(s: State, ctx: Ctx, enc: (Key, bool) -> Bytes, k: Key)
    requires Clamp(s.active, k, Rank(10, s.order)) == Rank(10, s.order)
    ensures Stamp(TWO_TIERS, s, ctx, Sample(enc, k, 10, true)) == Better(enc, k, s.order)
  {
    hide Clamp;
    assert TierFrom(TWO_TIERS.tiers, 0, ctx.(txBytes := enc(k, true)), Sample(enc, k, 10, true).tx) == 0;
  }

  /** An insert at the cursor of a pool without a queue. */
  lemma Enters(s: State, ctx: Ctx, enc: (Key, bool) -> Bytes, k: Key)
    requires k.sender in s.infos && k.nonce == Next(s, k.sender) && k !in s.active
    requires s.queued == map[] && ctx.block == None
    requires Clamp(s.active, k, Rank(10, s.order + 1)) == Rank(10, s.order + 1)
    ensures InsertItem(TWO_TIERS, s, ctx, Sample(enc, k, 10, true)).state ==
              Activate(Tick(s), Better(enc, k, s.order + 1))
  {
    hide Next, Stamp, Admit, Promote, Clamp, InsertItem, InsertActive, Better, Sample;
    StampsFirst(Tick(s), ctx, enc, k);
    AdmitsFree(TWO_TIERS, Tick(s), Better(enc, k, s.order + 1));
    SampleKey(enc, k);
    RoutesToActive(TWO_TIERS, s, ctx, Sample(enc, k, 10, true));
    EntersFree(TWO_TIERS, s, ctx, Sample(enc, k, 10, true));
    PromotesNothing(TWO_TIERS, Activate(Tick(s), Better(enc, k, s.order + 1)), ctx, k.sender);
  }

  lemma SampleKey(enc: (Key, bool) -> Bytes, k: Key)
    ensures Sample(enc, k, 10, true).key == k
  {
  }

  lemma BetterKey(enc: (Key, bool) -> Bytes, k: Key, order: int)
    ensures Better(enc, k, order).item.key == k
  {
  }

  lemma ReachOne(enc: (Key, bool) -> Bytes, sender: string)
    ensures Apply(TWO_TIERS, EMPTY, Sends(enc, Key(sender, 0), 10, true, Some(0))).state == OneActive(enc, sender)
  {
    hide InsertItem, Better, Clamp, Next;
    var s := Register(EMPTY, sender, 0);
    NoneActive(s, sender);
    Enters(s, Ctx(10, enc(Key(sender, 0), true), None), enc, Key(sender, 0));
    assert Activate(Tick(s), Better(enc, Key(sender, 0), 1)) == OneActive(enc, sender) by {
      BetterKey(enc, Key(sender, 0), 1);
    }
  }

  lemma OneShape(enc: (Key, bool) -> Bytes, sender: string)
    ensures var s := OneActive(enc, sender);
            && sender in s.infos && Next(s, sender) == 1 && Key(sender, 1) !in s.active
            && Clamp(s.active, Key(sender, 1), Rank(10, 2)) == Rank(10, 2)
            && Activate(Tick(s), Better(enc, Key(sender, 1), 2)) == TwoActive(enc, sender)
  {
    var s := OneActive(enc, sender);
    assert Key(sender, 0) in s.active;
    CursorAfter(s, sender);
  }

  lemma ReachTwo(enc: (Key, bool) -> Bytes, sender: string)
    ensures Apply(TWO_TIERS, OneActive(enc, sender), Sends(enc, Key(sender, 1), 10, true, None)).state ==
              TwoActive(enc, sender)
  {
    hide InsertItem, Better, Clamp, Next;
    OneShape(enc, sender);
    Enters(OneActive(enc, sender), Ctx(10, enc(Key(sender, 1), true), None), enc, Key(sender, 1));
  }

  // ---- the replacement --------------------------------------------------------------------------

  /** A replacement for the first of them: of higher priority, but in the second tier. */
  ghost function Worse(enc: (Key, bool) -> Bytes, sender: string): Item { Sample(enc, Key(sender, 0), 11, false) }

  ghost function Fallen(enc: (Key, bool) -> Bytes, sender: string): Entry {
    Entry(Worse(enc, sender), 3, 1, Rank(Score(1, 11), 3))
  }

  lemma WorseStamp(enc: (Key, bool) -> Bytes, sender: string, ctx: Ctx)
    ensures Stamp(TWO_TIERS, Tick(TwoActive(enc, sender)), ctx, Worse(enc, sender)) == Fallen(enc, sender)
  {
    var s := TwoActive(enc, sender);
    var item := Worse(enc, sender);
    assert TierFrom(TWO_TIERS.tiers, 0, ctx.(txBytes := item.bytes), item.tx) == 1;
    assert Key(sender, 1) in s.active && 1 in NoncesOf(s.active, sender);
  }

  lemma WorseAccepted(enc: (Key, bool) -> Bytes, sender: string, ctx: Ctx)
    requires ctx.block == None
    ensures sender in TwoActive(enc, sender).infos
    ensures var r := InsertActive(TWO_TIERS, TwoActive(enc, sender), ctx, Worse(enc, sender));
            r.error == Ok && r.state.active == TwoActive(enc, sender).active[Key(sender, 0) := Fallen(enc, sender)]
  {
    hide Stamp, EventsOf, Promote;
    WorseStamp(enc, sender, ctx);
    var s := TwoActive(enc, sender);
    var k := Key(sender, 0);
    var e := Fallen(enc, sender);
    var t := Activate(Tick(s).(active := s.active - {k}, queued := s.queued - {k}), e);
    MinusThenPut(s.active, k, e);
    assert s.queued - {k} == map[];
    PromotesNothing(TWO_TIERS, t, ctx, sender);
  }

  lemma Routed(enc: (Key, bool) -> Bytes, sender: string, ctx: Ctx)
    ensures sender in TwoActive(enc, sender).infos
    ensures InsertItem(TWO_TIERS, TwoActive(enc, sender), ctx, Worse(enc, sender)) ==
              InsertActive(TWO_TIERS, TwoActive(enc, sender), ctx, Worse(enc, sender))
  {
    hide InsertActive, InsertQueued;
    assert Key(sender, 1) in TwoActive(enc, sender).active;
  }

  ghost function Steps(enc: (Key, bool) -> Bytes, sender: string): seq<Step> {
    [Sends(enc, Key(sender, 0), 10, true, Some(0)), Sends(enc, Key(sender, 1), 10, true, None)]
  }

  lemma StepsReach(enc: (Key, bool) -> Bytes, sender: string)
    ensures After(TWO_TIERS, EMPTY, Steps(enc, sender)) == TwoActive(enc, sender)
  {
    hide Apply, After, Sends, OneActive, TwoActive;
    var steps := Steps(enc, sender);
    NoSteps(TWO_TIERS, steps);
    ReachOne(enc, sender);
    AfterNext(TWO_TIERS, steps, 0, EMPTY, OneActive(enc, sender));
    ReachTwo(enc, sender);
    AfterNext(TWO_TIERS, steps, 1, OneActive(enc, sender), TwoActive(enc, sender));
    assert steps[..2] == steps;
  }

  /** Two inserts from the empty pool keep the invariant; a third, a replacement of higher priority that falls into a
      worse tier, is accepted and ranks below the transaction that follows it in its sender's run, so it would also be
      selected after it. */
  lemma WorseTierBreaksOrder(enc: (Key, bool) -> Bytes, sender: string)
    ensures var s := After(TWO_TIERS, EMPTY, Steps(enc, sender));
            var r := Apply(TWO_TIERS, s, Sends(enc, Key(sender, 0), 11, false, None));
            && RanksFall(s.active)
            && r.error == Ok && Key(sender, 0) in r.state.active && Key(sender, 1) in r.state.active
            && Before(r.state.active[Key(sender, 1)], r.state.active[Key(sender, 0)])
            && !RanksFall(r.state.active)
  {
    hide InsertItem, InsertActive, After;
    var ctx := Ctx(11, enc(Key(sender, 0), false), None);
    StepsReach(enc, sender);
    WorseAccepted(enc, sender, ctx);
    Routed(enc, sender, ctx);
    var s := TwoActive(enc, sender);
    var active := s.active[Key(sender, 0) := Fallen(enc, sender)];
    assert Key(sender, 0) in active && Key(sender, 1) in active;
    assert Outranks(active[Key(sender, 1)].clamped, active[Key(sender, 0)].clamped);
  }
}
