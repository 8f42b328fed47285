/** A gap clock that outlives its gap. A sender is seen blocked, is then served, and is blocked anew by the time of the
    next clean-up, which drops a transaction that arrived in between. */
module MempoolExpiryExample {
  import opened Common
  import opened MempoolTypes
  import opened MempoolState
  import opened MempoolRuns
  import opened MempoolExampleSteps
  import opened MempoolExpiry
  import opened MempoolBlocked

  /** Nonce 1 arrives and waits; a clean-up at time 0 sees the gap; nonce 0 arrives and both become active; nonce 3
      arrives and waits; nonce 1 is committed. */
  ghost function Steps(enc: Key -> Bytes, sender: string): seq<Step> {
    [Sends(enc, Key(sender, 1), 1, Some(0)),
     DoClean([(sender, 0)], 0),
     Sends(enc, Key(sender, 0), 1, None),
     Sends(enc, Key(sender, 3), 1, None),
     DoRemove(TxOf(enc, Key(sender, 1)), CommittedInBlock)]
  }

  // ---- the states it passes through -------------------------------------------------------------

  ghost function Waiting(enc: Key -> Bytes, sender: string, gapSince: Option<int>): State {
    State(map[sender := Info(0, gapSince)], map[], map[Key(sender, 1) := Waiter(enc, Key(sender, 1), 1)], 0)
  }

  ghost function Both(enc: Key -> Bytes, sender: string): map<Key, Entry> {
    map[Key(sender, 0) := Runner(enc, Key(sender, 0), 1, 1), Key(sender, 1) := Runner(enc, Key(sender, 1), 1, 2)]
  }

  ghost function Served(enc: Key -> Bytes, sender: string, queued: map<Key, Entry>): State {
    State(map[sender := Info(0, Some(0))], Both(enc, sender), queued, 2)
  }

  ghost function Third(enc: Key -> Bytes, sender: string): map<Key, Entry> {
    map[Key(sender, 3) := Waiter(enc, Key(sender, 3), 1)]
  }

  ghost function Again(enc: Key -> Bytes, sender: string): State {
    State(map[sender := Info(2, Some(0))], map[], Third(enc, sender), 2)
  }

  lemma FirstWaits(enc: Key -> Bytes, sender: string)
    ensures Apply(SMALL, EMPTY, Sends(enc, Key(sender, 1), 1, Some(0))).state == Waiting(enc, sender, None)
  {
    hide Apply, Sends;
    QueuesSecond(EMPTY, enc, sender, 1);
  }

  lemma WaitingBlocked(enc: Key -> Bytes, sender: string, gapSince: Option<int>)
    ensures Blocked(Waiting(enc, sender, gapSince), sender)
  {
    var s := Waiting(enc, sender, gapSince);
    NoneActive(s, sender);
    assert Key(sender, 1) in s.queued;
    assert 1 in NoncesOf(s.queued, sender);
  }

  lemma GapSeen(enc: Key -> Bytes, sender: string)
    ensures Apply(SMALL, Waiting(enc, sender, None), DoClean([(sender, 0)], 0)).state == Waiting(enc, sender, Some(0))
  {
    var s := Waiting(enc, sender, None);
    NothingStale(s, sender, 0);
    assert AtSeq(s, sender, 0) == s;
    WaitingBlocked(enc, sender, None);
    StillQueued(Waiting(enc, sender, Some(0)), Key(sender, 1));
    hide HasGap, RemoveStale, SetSeq, EventsOf, Cleanup;
    assert Expire(SMALL, s, sender, 0).state == Waiting(enc, sender, Some(0));
    assert CleanSender(SMALL, s, sender, 0, 0).state == Waiting(enc, sender, Some(0));
    OneTurn(SMALL, s, sender, 0, 0);
  }

  lemma OneTurn(c: Config, s: State, sender: string, seqNo: nat, now: int)
    ensures CleanSenders(c, s, [(sender, seqNo)], now).state == CleanSender(c, s, sender, seqNo, now).state
  {
    hide CleanSender;
    assert [(sender, seqNo)][..0] == [];
  }

  // ---- the missing nonce arrives ----------------------------------------------------------------

  ghost function Entered(enc: Key -> Bytes, sender: string): State {
    State(map[sender := Info(0, Some(0))], map[Key(sender, 0) := Runner(enc, Key(sender, 0), 1, 1)],
          map[Key(sender, 1) := Waiter(enc, Key(sender, 1), 1)], 1)
  }

  /** What is left when the second transaction is in hand. */
  ghost function InHand(enc: Key -> Bytes, sender: string): State { Entered(enc, sender).(queued := map[], order := 2) }

  lemma SecondStamp(enc: Key -> Bytes, sender: string, ctx: Ctx)
    requires ctx.block == None
    ensures var s := InHand(enc, sender);
            var e := Runner(enc, Key(sender, 1), 1, 2);
            Stamp(SMALL, s, ctx, It(enc, Key(sender, 1), 1)) == e && Admit(SMALL, s, None, e, false) == Free
  {
    var s := InHand(enc, sender);
    assert Key(sender, 0) in s.active;
    StampIs(s, ctx, enc, Key(sender, 1), 1);
    AdmitsFree(SMALL, s, Runner(enc, Key(sender, 1), 1, 2));
  }

  lemma SecondFollows(enc: Key -> Bytes, sender: string, ctx: Ctx)
    requires ctx.block == None
    ensures Promote(SMALL, Entered(enc, sender), ctx, sender).state == Served(enc, sender, map[])
  {
    var s := Entered(enc, sender);
    var e := Runner(enc, Key(sender, 1), 1, 2);
    CursorAfter(s, sender);
    ChainOfOne(s.queued, sender, 1);
    SecondStamp(enc, sender, ctx);
    assert s.queued - {Key(sender, 1)} == map[];
    assert Tick(s.(queued := map[])) == InHand(enc, sender);
    assert Activate(InHand(enc, sender), e) == Served(enc, sender, map[]);
    hide Next, Chain, Stamp, Admit, Runner;
    var es := [s.queued[Key(sender, 1)]];
    assert es[1..] == [];
    assert PromoteAll(SMALL, s.(queued := map[]), ctx, es).state == Served(enc, sender, map[]);
  }

  lemma HeadArrives(enc: Key -> Bytes, sender: string)
    ensures Apply(SMALL, Waiting(enc, sender, Some(0)), Sends(enc, Key(sender, 0), 1, None)).state ==
              Served(enc, sender, map[])
  {
    hide InsertItem, Promote, Runner, Waiter;
    var s := Waiting(enc, sender, Some(0));
    var ctx := Ctx(1, enc(Key(sender, 0)), None);
    Activates(s, ctx, enc, sender, 1);
    EnteredShape(enc, sender);
    SecondFollows(enc, sender, ctx);
  }

  lemma EnteredShape(enc: Key -> Bytes, sender: string)
    ensures Activate(Tick(Waiting(enc, sender, Some(0))), Runner(enc, Key(sender, 0), 1, 1)) == Entered(enc, sender)
  {
  }

  // ---- a later nonce arrives, the run is committed ----------------------------------------------

  lemma ServedCursor(enc: Key -> Bytes, sender: string)
    ensures var s := Served(enc, sender, map[]); Next(s, sender) == 2 && NoncesOf(s.active, sender) == {0, 1}
  {
    var s := Served(enc, sender, map[]);
    assert Key(sender, 0) in s.active && Key(sender, 1) in s.active;
    assert NoncesOf(s.active, sender) == {0, 1};
    var m := MaxOf(NoncesOf(s.active, sender));
    assert 1 in NoncesOf(s.active, sender) && m <= 1;
  }

  lemma ThirdWaits(enc: Key -> Bytes, sender: string)
    ensures Apply(SMALL, Served(enc, sender, map[]), Sends(enc, Key(sender, 3), 1, None)).state ==
              Served(enc, sender, Third(enc, sender))
  {
    var s := Served(enc, sender, map[]);
    ServedCursor(enc, sender);
    assert NoncesOf(s.queued, sender) == {};
    hide Next, NoncesOf, EventsOf, Both;
    EnqueuesFirst(s, Waiter(enc, Key(sender, 3), 1));
    hide Enqueue;
  }

  lemma RunCommitted(enc: Key -> Bytes, sender: string)
    ensures Apply(SMALL, Served(enc, sender, Third(enc, sender)),
                  DoRemove(TxOf(enc, Key(sender, 1)), CommittedInBlock)).state == Again(enc, sender)
  {
    hide Run, EventsOf, Runner, Waiter;
    var s := Served(enc, sender, Third(enc, sender));
    var k := Key(sender, 1);
    var core := s.(active := s.active - {k});
    assert CutBelow(core.active, sender, 2) == map[];
    assert CutBelow(s.queued, sender, 2) == s.queued;
    assert RemoveStale(SetSeq(core, sender, 2), sender, 2).state == Again(enc, sender);
    StillQueued(Again(enc, sender), Key(sender, 3));
    hide RemoveStale, SetSeq, Cleanup;
  }

  lemma AgainBlocked(enc: Key -> Bytes, sender: string)
    ensures Blocked(Again(enc, sender), sender)
  {
    var s := Again(enc, sender);
    NoneActive(s, sender);
    assert Key(sender, 3) in s.queued;
    assert 3 in NoncesOf(s.queued, sender);
  }

  lemma ServedFree(enc: Key -> Bytes, sender: string, queued: map<Key, Entry>)
    ensures !Blocked(Served(enc, sender, queued), sender)
  {
    assert Key(sender, 0) in Both(enc, sender);
    assert 0 in NoncesOf(Both(enc, sender), sender);
  }

  // ---- the run ----------------------------------------------------------------------------------

  lemma Reaches(enc: Key -> Bytes, sender: string)
    ensures var steps := Steps(enc, sender);
            && After(SMALL, EMPTY, steps[..1]) == Waiting(enc, sender, None)
            && After(SMALL, EMPTY, steps[..2]) == Waiting(enc, sender, Some(0))
            && After(SMALL, EMPTY, steps[..3]) == Served(enc, sender, map[])
            && After(SMALL, EMPTY, steps[..4]) == Served(enc, sender, Third(enc, sender))
            && After(SMALL, EMPTY, steps) == Again(enc, sender)
  {
    hide Apply, After, Sends, Waiting, Served, Again;
    var steps := Steps(enc, sender);
    NoSteps(SMALL, steps);
    FirstWaits(enc, sender);
    AfterNext(SMALL, steps, 0, EMPTY, Waiting(enc, sender, None));
    GapSeen(enc, sender);
    AfterNext(SMALL, steps, 1, Waiting(enc, sender, None), Waiting(enc, sender, Some(0)));
    HeadArrives(enc, sender);
    AfterNext(SMALL, steps, 2, Waiting(enc, sender, Some(0)), Served(enc, sender, map[]));
    ThirdWaits(enc, sender);
    AfterNext(SMALL, steps, 3, Served(enc, sender, map[]), Served(enc, sender, Third(enc, sender)));
    RunCommitted(enc, sender);
    AfterNext(SMALL, steps, 4, Served(enc, sender, Third(enc, sender)), Again(enc, sender));
    assert steps[..5] == steps;
  }

  lemma ThirdDropped(enc: Key -> Bytes, sender: string)
    ensures Apply(SMALL, Again(enc, sender), DoClean([(sender, 2)], 60)).state.queued == map[]
  {
    var s := Again(enc, sender);
    NothingStale(s, sender, 2);
    assert AtSeq(s, sender, 2) == s;
    AgainBlocked(enc, sender);
    assert CutFrom(s.queued, sender, 0) == map[];
    hide HasGap, RemoveStale, SetSeq, EventsOf, Run, IsEmpty;
    OneTurn(SMALL, s, sender, 2, 60);
  }

  /** Nonce 3 is dropped by the second clean-up although its sender was blocked only since the commit just before it.
      When the gap was first seen nonce 3 was not there; in between, nonces 0 and 1 were active. The third step is one
      that frees the sender. */
  lemma ClockOutlivesGap(enc: Key -> Bytes, sender: string)
    ensures var steps := Steps(enc, sender);
            var s := After(SMALL, EMPTY, steps);
            && Blocked(After(SMALL, EMPTY, steps[..2]), sender)
            && Key(sender, 3) !in After(SMALL, EMPTY, steps[..2]).queued
            && Frees(After(SMALL, EMPTY, steps[..2]), steps[2], sender)
            && !Blocked(After(SMALL, EMPTY, steps[..3]), sender) && !Blocked(After(SMALL, EMPTY, steps[..4]), sender)
            && Blocked(s, sender) && Key(sender, 3) in s.queued
            && Key(sender, 3) !in Apply(SMALL, s, DoClean([(sender, 2)], 60)).state.queued
  {
    hide Apply, After, Blocked;
    Reaches(enc, sender);
    WaitingBlocked(enc, sender, Some(0));
    ServedFree(enc, sender, map[]);
    ServedFree(enc, sender, Third(enc, sender));
    AgainBlocked(enc, sender);
    ThirdDropped(enc, sender);
  }
}
