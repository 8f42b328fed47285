/** Whole runs: every interleaving of the pool's critical sections. */
module MempoolRuns {
  import opened Common
  import opened MempoolTypes
  import opened MempoolState
  import opened MempoolInvariant
  import opened MempoolSections
  import opened MempoolConservation
  import opened MempoolLaws

  /** One critical section under `p.mtx`. What was read outside the lock (sequences, the clock, sender snapshots) is an
      arbitrary argument, so any interleaving of callers is a sequence of steps. The last phase of `cleanUpEntries` is a
      list of `DoRemove` steps. */
  datatype Step =
    | DoInsert(ctx: Ctx, tx: Tx, fetched: Option<nat>)
    | DoRemove(tx: Tx, reason: Reason)
    | DoPromote(ctx: Ctx, seqs: seq<(string, nat)>, activeOnly: seq<string>)
    | DoClean(seqs: seq<(string, nat)>, now: int)
    | DoSweep

  /** A pass or a clean-up visits each sender once, as the snapshot of a map's keys does. */
  ghost predicate DistinctSenders(seqs: seq<(string, nat)>) {
    forall i, j :: 0 <= i < j < |seqs| ==> seqs[i].0 != seqs[j].0
  }

  ghost predicate TurnAt(seqs: seq<(string, nat)>, sender: string, i: nat) { i < |seqs| && seqs[i].0 == sender }

  ghost predicate Visits(seqs: seq<(string, nat)>, sender: string) { exists i: nat :: TurnAt(seqs, sender, i) }

  ghost function Apply(c: Config, s: State, step: Step): Result {
    match step
    case DoInsert(ctx, tx, fetched) => Insert(c, s, ctx, tx, fetched)
    case DoRemove(tx, reason) => Remove(c, s, tx, reason)
    case DoPromote(ctx, seqs, activeOnly) => PromoteQueued(c, s, ctx, seqs, activeOnly)
    case DoClean(seqs, now) => Clean(c, s, seqs, now)
    case DoSweep => Result(Sweep(s), Ok, [], [], [])
  }

  /** A replacement must not fall behind the transaction that follows it; see `SafeReplacement`. */
  ghost predicate Safe(c: Config, s: State, step: Step) {
    step.DoInsert? ==> SafeInsert(c, s, step.ctx, step.tx)
  }

  ghost function After(c: Config, s: State, steps: seq<Step>): State {
    if steps == [] then s else Apply(c, After(c, s, steps[..|steps| - 1]), steps[|steps| - 1]).state
  }

  ghost predicate SafeRun(c: Config, s: State, steps: seq<Step>) {
    steps == [] ||
    (SafeRun(c, s, steps[..|steps| - 1]) && Safe(c, After(c, s, steps[..|steps| - 1]), steps[|steps| - 1]))
  }

  // ---- the invariant --------------------------------------------------------------------------

  lemma StepInv(c: Config, s: State, step: Step)
    requires Inv(c, s) && Safe(c, s, step)
    ensures Inv(c, Apply(c, s, step).state)
  {
    hide Inv, Insert, Remove, PromoteQueued, CleanSenders, Sweep, SafeInsert;
    match step
    case DoInsert(ctx, tx, fetched) => InsertInv(c, s, ctx, tx, fetched);
    case DoRemove(tx, reason) => RemoveInv(c, s, tx, reason);
    case DoPromote(ctx, seqs, activeOnly) => PromoteQueuedInv(c, s, ctx, seqs, activeOnly);
    case DoClean(seqs, now) => CleanSendersInv(c, s, seqs, now);
    case DoSweep => SweepInv(c, s);
  }

  /** Every state of every run satisfies the invariant: gap-free runs from the on-chain sequence, queues beyond them,
      falling ranks, and the bounds on the active set, on each queue and on all queues together. */
  lemma {:induction false} RunInv(c: Config, steps: seq<Step>)
    requires c.Valid() && SafeRun(c, EMPTY, steps)
    ensures Inv(c, After(c, EMPTY, steps))
  {
    hide Inv, Apply, Safe;
    EmptyInv(c);
    if steps != [] {
      RunInv(c, steps[..|steps| - 1]);
      StepInv(c, After(c, EMPTY, steps[..|steps| - 1]), steps[|steps| - 1]);
    }
  }

  /** With a single tier, as app/abcipp.go configures, no run is excluded. */
  lemma {:induction false} SingleTierRunInv(c: Config, steps: seq<Step>)
    requires c.Valid() && |c.tiers| == 1
    ensures SafeRun(c, EMPTY, steps) && Inv(c, After(c, EMPTY, steps))
  {
    hide Inv, Apply, SafeInsert;
    if steps != [] {
      var init := steps[..|steps| - 1];
      var last := steps[|steps| - 1];
      SingleTierRunInv(c, init);
      if last.DoInsert? {
        SingleTierIsSafe(c, After(c, EMPTY, init), last.ctx, last.tx);
      }
    }
    RunInv(c, steps);
  }

  // ---- conservation ---------------------------------------------------------------------------

  lemma StepConserves(c: Config, s: State, step: Step)
    requires Inv(c, s) && Safe(c, s, step)
    ensures Conserves(s, Apply(c, s, step))
  {
    InvKeys(c, s);
    hide Inv, Insert, Remove, PromoteQueued, CleanSenders, SafeInsert, Conserves, Loses;
    match step
    case DoInsert(ctx, tx, fetched) => InsertConserves(c, s, ctx, tx, fetched);
    case DoRemove(tx, reason) => RemoveConserves(c, s, tx, reason);
    case DoPromote(ctx, seqs, activeOnly) => PromoteQueuedConserves(c, s, ctx, seqs, activeOnly);
    case DoClean(seqs, now) =>
      CleanConserves(c, s, seqs, now);
      LossConserves(s, Clean(c, s, seqs, now));
    case DoSweep =>
      LosesNothing(s);
      InfosLose(s, s, Sweep(s), []);
      LossConserves(s, Apply(c, s, DoSweep));
  }

  ghost function Accepted(c: Config, s: State, steps: seq<Step>): multiset<Item> {
    if steps == [] then multiset{}
    else Accepted(c, s, steps[..|steps| - 1]) +
         multiset(Apply(c, After(c, s, steps[..|steps| - 1]), steps[|steps| - 1]).added)
  }

  ghost function Dropped(c: Config, s: State, steps: seq<Step>): seq<Entry> {
    if steps == [] then []
    else Dropped(c, s, steps[..|steps| - 1]) + Apply(c, After(c, s, steps[..|steps| - 1]), steps[|steps| - 1]).removed
  }

  /** Over a whole run, the accepted transactions are those still pooled plus those reported removed. */
  lemma {:induction false} RunConserves(c: Config, steps: seq<Step>)
    requires c.Valid() && SafeRun(c, EMPTY, steps)
    ensures Moves(EMPTY, Accepted(c, EMPTY, steps), After(c, EMPTY, steps), Dropped(c, EMPTY, steps))
  {
    hide Inv, Apply, Safe, Moves;
    if steps == [] {
      NothingMoves();
    } else {
      var init := steps[..|steps| - 1];
      var s := After(c, EMPTY, init);
      var r := Apply(c, s, steps[|steps| - 1]);
      RunInv(c, init);
      RunConserves(c, init);
      StepConserves(c, s, steps[|steps| - 1]);
      MovesThen(EMPTY, Accepted(c, EMPTY, init), s, Dropped(c, EMPTY, init), multiset(r.added), r.state, r.removed);
    }
  }

  lemma NothingMoves()
    ensures Moves(EMPTY, multiset{}, EMPTY, [])
  {
    assert Bare([]) == [];
  }

  // ---- slots ----------------------------------------------------------------------------------

  /** A pooled item sits in its own slot, once. */
  lemma PoolIsSlots(c: Config, s: State, x: Item)
    requires Inv(c, s)
    ensures Pool(s)[x] == if SlotItem(s, x.key) == Some(x) then 1 else 0
  {
    InvKeys(c, s);
    SlotsDisjoint(c, s, x.key);
    InItemSet(s.active, x);
    InItemSet(s.queued, x);
    hide Inv, ItemSet;
  }

  lemma InsertAdds(c: Config, s: State, step: Step)
    requires Inv(c, s)
    ensures var added := Apply(c, s, step).added;
            |added| <= 1 && (added != [] ==> step.DoInsert? && Beats(s, added[0]))
  {
    hide Insert, Remove, PromoteQueued, Clean, Sweep, Inv;
    match step
    case DoInsert(ctx, tx, fetched) =>
      AcceptedBeatsOccupant(c, s, ctx, tx, fetched);
    case DoRemove(tx, reason) => RemoveAddsNothing(c, s, tx, reason);
    case DoPromote(ctx, seqs, activeOnly) => PromoteAddsNothing(c, s, ctx, seqs, activeOnly);
    case DoClean(seqs, now) => CleanAddsNothing(c, s, seqs, now);
    case DoSweep =>
  }

  /** `x` has a higher priority than whatever is in its slot. */
  ghost predicate Beats(s: State, x: Item) {
    var was := SlotItem(s, x.key);
    was.Some? ==> x.priority > was.value.priority
  }

  lemma RemoveAddsNothing(c: Config, s: State, tx: Tx, reason: Reason)
    ensures Remove(c, s, tx, reason).added == []
  {
    hide RemoveByReason;
  }

  lemma PromoteAddsNothing(c: Config, s: State, ctx: Ctx, seqs: seq<(string, nat)>, activeOnly: seq<string>)
    ensures PromoteQueued(c, s, ctx, seqs, activeOnly).added == []
  {
    hide PromoteSenders, CleanupAll;
  }

  lemma CleanAddsNothing(c: Config, s: State, seqs: seq<(string, nat)>, now: int)
    ensures Clean(c, s, seqs, now).added == []
  {
    hide CleanSenders;
  }

  /** The pool after a step and what the step removed are disjoint and free of duplicates. */
  lemma NoDuplicates(c: Config, s: State, step: Step, x: Item)
    requires Inv(c, s) && Safe(c, s, step)
    ensures var r := Apply(c, s, step);
            Pool(r.state)[x] + Items(r.removed)[x] <= 1
  {
    var r := Apply(c, s, step);
    hide Inv, Apply, Pool, Items;
    StepConserves(c, s, step);
    InsertAdds(c, s, step);
    PoolIsSlots(c, s, x);
    assert (Pool(s) + multiset(r.added))[x] == (Pool(r.state) + Items(r.removed))[x];
    if r.added != [] {
      assert r.added == [r.added[0]];
    }
  }

  /** Where a slot's transaction comes from: it was already there, or the step inserted it over a worse one. */
  lemma StepSlot(c: Config, s: State, step: Step, k: Key)
    requires Inv(c, s) && Safe(c, s, step)
    ensures var was := SlotItem(s, k);
            var now := SlotItem(Apply(c, s, step).state, k);
            now.Some? ==> now == was || (was.Some? ==> now.value.priority > was.value.priority)
  {
    var r := Apply(c, s, step);
    hide Inv, Apply, Pool, Items;
    StepInv(c, s, step);
    var now := SlotItem(r.state, k);
    if now.Some? {
      SlotKeyed(c, r.state, k);
      PoolIsSlots(c, r.state, now.value);
      PoolIsSlots(c, s, now.value);
      StepConserves(c, s, step);
      InsertAdds(c, s, step);
      assert (Pool(s) + multiset(r.added))[now.value] == (Pool(r.state) + Items(r.removed))[now.value];
      if r.added != [] {
        assert r.added == [r.added[0]];
      }
    }
  }

  lemma SlotKeyed(c: Config, s: State, k: Key)
    requires Inv(c, s) && SlotItem(s, k).Some?
    ensures SlotItem(s, k).value.key == k
  {
  }

  ghost predicate OccupiedThroughout(c: Config, s: State, steps: seq<Step>, k: Key) {
    SlotItem(After(c, s, steps), k).Some? &&
    (steps != [] ==> OccupiedThroughout(c, s, steps[..|steps| - 1], k))
  }

  /** Over any run, a slot that is never empty only ever changes to a transaction of strictly higher priority, through
      promotions and demotions alike. */
  lemma {:induction false} SlotPriorityRises(c: Config, s: State, steps: seq<Step>, k: Key)
    requires Inv(c, s) && SafeRun(c, s, steps) && OccupiedThroughout(c, s, steps, k)
    ensures SlotItem(s, k).Some?
    ensures var was := SlotItem(s, k);
            var now := SlotItem(After(c, s, steps), k);
            now == was || now.value.priority > was.value.priority
    ensures Inv(c, After(c, s, steps))
  {
    hide Inv, Apply, Safe, SlotItem;
    if steps != [] {
      var init := steps[..|steps| - 1];
      SlotPriorityRises(c, s, init, k);
      StepInv(c, After(c, s, init), steps[|steps| - 1]);
      StepSlot(c, After(c, s, init), steps[|steps| - 1], k);
    }
  }
}
