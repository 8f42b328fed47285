/** What the gap clock of a sender means over a whole run, and when its queue expires. */
module MempoolExpiry {
  import opened Common
  import opened MempoolTypes
  import opened MempoolState
  import opened MempoolRuns
  import opened MempoolCursor

  /** The time at which the sender's gap was first seen, if it is counted. */
  ghost function Clock(s: State, sender: string): Option<int> {
    if sender in s.infos then s.infos[sender].gapSince else None
  }

  ghost predicate Blocked(s: State, sender: string) { sender in s.infos && HasGap(s, sender) }

  /** Blocked also once its sequence is advanced and what became stale is gone. */
  ghost predicate BlockedAt(s: State, sender: string, seqNo: nat) {
    Blocked(RemoveStale(SetSeq(s, sender, seqNo), sender, seqNo).state, sender)
  }

  /** The clean-up visits the sender. */
  ghost predicate Inspects(step: Step, sender: string) { step.DoClean? && Visits(step.seqs, sender) }

  /** ... and finds it blocked. */
  ghost predicate SawGap(s: State, step: Step, sender: string) {
    step.DoClean? && exists i: nat {:trigger TurnAt(step.seqs, sender, i)} ::
                       TurnAt(step.seqs, sender, i) && BlockedAt(s, sender, step.seqs[i].1)
  }

  // ---- what a sender's turn depends on --------------------------------------------------------

  /** The sender's record and its active and queued nonces are the same. */
  ghost predicate SameView(s: State, t: State, sender: string) {
    && (sender in s.infos <==> sender in t.infos)
    && (sender in s.infos ==> s.infos[sender] == t.infos[sender])
    && NoncesOf(s.active, sender) == NoncesOf(t.active, sender)
    && NoncesOf(s.queued, sender) == NoncesOf(t.queued, sender)
  }

  lemma ViewThen(s: State, t: State, u: State, sender: string)
    requires SameView(s, t, sender) && SameView(t, u, sender)
    ensures SameView(s, u, sender)
  {
  }

  lemma ViewBlocked(s: State, t: State, sender: string)
    requires SameView(s, t, sender)
    ensures Blocked(s, sender) <==> Blocked(t, sender)
  {
  }

  lemma CutNonces(m: map<Key, Entry>, sender: string, seqNo: nat, n: nat)
    ensures n in NoncesOf(CutBelow(m, sender, seqNo), sender) <==> n in NoncesOf(m, sender) && n >= seqNo
  {
    assert Key(sender, n) in CutBelow(m, sender, seqNo) <==> Key(sender, n) in m && n >= seqNo;
  }

  lemma CutSame(m: map<Key, Entry>, n: map<Key, Entry>, sender: string, seqNo: nat)
    requires NoncesOf(m, sender) == NoncesOf(n, sender)
    ensures NoncesOf(CutBelow(m, sender, seqNo), sender) == NoncesOf(CutBelow(n, sender, seqNo), sender)
  {
    forall x: nat ensures x in NoncesOf(CutBelow(m, sender, seqNo), sender) <==>
                          x in NoncesOf(CutBelow(n, sender, seqNo), sender)
    {
      CutNonces(m, sender, seqNo, x);
      CutNonces(n, sender, seqNo, x);
    }
  }

  lemma ViewBlockedAt(s: State, t: State, sender: string, seqNo: nat)
    requires SameView(s, t, sender)
    ensures BlockedAt(s, sender, seqNo) <==> BlockedAt(t, sender, seqNo)
  {
    hide NoncesOf, Run;
    CutSame(s.active, t.active, sender, seqNo);
    CutSame(s.queued, t.queued, sender, seqNo);
    ViewBlocked(RemoveStale(SetSeq(s, sender, seqNo), sender, seqNo).state,
                RemoveStale(SetSeq(t, sender, seqNo), sender, seqNo).state, sender);
  }

  lemma NoncesElse(m: map<Key, Entry>, n: map<Key, Entry>, sender: string)
    requires forall k: Key {:trigger k in m} {:trigger k in n} :: k.sender == sender ==> (k in m <==> k in n)
    ensures NoncesOf(m, sender) == NoncesOf(n, sender)
  {
    forall x: nat ensures x in NoncesOf(m, sender) <==> x in NoncesOf(n, sender) {
      assert Key(sender, x) in m <==> Key(sender, x) in n;
    }
  }

  lemma CleanupElsewhere(s: State, x: string, sender: string)
    requires x != sender
    ensures SameView(s, Cleanup(s, x), sender)
  {
    hide IsEmpty;
  }

  lemma StaleElsewhere(s: State, x: string, seqNo: nat, sender: string)
    requires x != sender
    ensures SameView(s, RemoveStale(SetSeq(s, x, seqNo), x, seqNo).state, sender)
  {
    hide Run, NoncesOf;
    NoncesElse(s.active, CutBelow(s.active, x, seqNo), sender);
    NoncesElse(s.queued, CutBelow(s.queued, x, seqNo), sender);
  }

  lemma ExpireElsewhere(c: Config, s: State, x: string, now: int, sender: string)
    requires x != sender && x in s.infos
    ensures SameView(s, Expire(c, s, x, now).state, sender)
  {
    hide Run, NoncesOf, HasGap;
    NoncesElse(s.queued, CutFrom(s.queued, x, 0), sender);
  }

  lemma CleanElsewhere(c: Config, s: State, x: string, seqNo: nat, now: int, sender: string)
    requires x != sender
    ensures SameView(s, CleanSender(c, s, x, seqNo, now).state, sender)
  {
    hide SetSeq, RemoveStale, Expire, Cleanup, SameView;
    if x in s.infos {
      var stale := RemoveStale(SetSeq(s, x, seqNo), x, seqNo).state;
      StaleElsewhere(s, x, seqNo, sender);
      StaleInfos(s, x, seqNo);
      var expired := Expire(c, stale, x, now).state;
      ExpireElsewhere(c, stale, x, now, sender);
      CleanupElsewhere(expired, x, sender);
      ViewThen(s, stale, expired, sender);
      ViewThen(s, expired, Cleanup(expired, x), sender);
    } else {
      ViewItself(s, sender);
    }
  }

  lemma StaleInfos(s: State, x: string, seqNo: nat)
    requires x in s.infos
    ensures x in RemoveStale(SetSeq(s, x, seqNo), x, seqNo).state.infos
  {
  }

  lemma ViewItself(s: State, sender: string)
    ensures SameView(s, s, sender)
  {
  }

  // ---- one clean-up ---------------------------------------------------------------------------

  lemma NoTurnBefore(seqs: seq<(string, nat)>, sender: string)
    requires seqs != [] && !Visits(seqs, sender)
    ensures !Visits(seqs[..|seqs| - 1], sender) && seqs[|seqs| - 1].0 != sender
  {
    var n := |seqs| - 1;
    assert !TurnAt(seqs, sender, n);
    forall i: nat {:trigger TurnAt(seqs[..n], sender, i)} ensures !TurnAt(seqs[..n], sender, i) {
      assert !TurnAt(seqs, sender, i);
    }
  }

  lemma {:induction false} CleanOthers(c: Config, s: State, seqs: seq<(string, nat)>, now: int, sender: string)
    requires !Visits(seqs, sender)
    ensures SameView(s, CleanSenders(c, s, seqs, now).state, sender)
  {
    if seqs == [] {
      ViewItself(s, sender);
    } else {
      hide CleanSender, SameView;
      var n := |seqs| - 1;
      NoTurnBefore(seqs, sender);
      var before := CleanSenders(c, s, seqs[..n], now).state;
      CleanOthers(c, s, seqs[..n], now, sender);
      CleanElsewhere(c, before, seqs[n].0, seqs[n].1, now, sender);
      ViewThen(s, before, CleanSender(c, before, seqs[n].0, seqs[n].1, now).state, sender);
    }
  }

  /** The sender's turn finds it blocked for the time-to-live. */
  ghost predicate Overdue(c: Config, s: State, sender: string, seqNo: nat, now: int) {
    && BlockedAt(s, sender, seqNo)
    && Clock(s, sender).Some? && Clock(s, sender).value + c.queuedGapTTL <= now
  }

  /** The sender's own turn: what it finds decides about the queue. */
  lemma OwnQueue(c: Config, s: State, sender: string, seqNo: nat, now: int)
    requires sender in s.infos
    ensures var t := CleanSender(c, s, sender, seqNo, now).state;
            if Overdue(c, s, sender, seqNo, now) then NoncesOf(t.queued, sender) == {}
            else t.queued == CutBelow(s.queued, sender, seqNo)
  {
    hide Run, NoncesOf, CutBelow, IsEmpty, CutFrom, HasGap;
    NothingFromZero(RemoveStale(SetSeq(s, sender, seqNo), sender, seqNo).state.queued, sender);
  }

  /** ... and about the clock: it runs on or starts exactly when the sender is found blocked. */
  lemma OwnTurn(c: Config, s: State, sender: string, seqNo: nat, now: int)
    requires sender in s.infos
    ensures var t := CleanSender(c, s, sender, seqNo, now).state;
            if BlockedAt(s, sender, seqNo) && !Overdue(c, s, sender, seqNo, now) then
              Blocked(t, sender) && Clock(t, sender) == (if Clock(s, sender).Some? then Clock(s, sender) else Some(now))
            else Clock(t, sender) == None
  {
    hide Run, NoncesOf, CutBelow, CutFrom;
  }

  lemma NothingFromZero(m: map<Key, Entry>, sender: string)
    ensures NoncesOf(CutFrom(m, sender, 0), sender) == {}
  {
    forall n: nat ensures n !in NoncesOf(CutFrom(m, sender, 0), sender) {
      assert Key(sender, n) !in CutFrom(m, sender, 0);
    }
  }

  lemma {:induction false} CleanClock(c: Config, s: State, seqs: seq<(string, nat)>, now: int, sender: string, t: int)
    requires DistinctSenders(seqs) && Clock(CleanSenders(c, s, seqs, now).state, sender) == Some(t)
    ensures if Visits(seqs, sender) then
              && SawGap(s, DoClean(seqs, now), sender) && Blocked(CleanSenders(c, s, seqs, now).state, sender)
              && (Clock(s, sender) == Some(t) || (Clock(s, sender) == None && now == t))
            else Clock(s, sender) == Some(t)
  {
    hide CleanSender, BlockedAt, SameView, Blocked;
    if Visits(seqs, sender) {
      var n := |seqs| - 1;
      var before := CleanSenders(c, s, seqs[..n], now).state;
      var (x, seqNo) := seqs[n];
      assert TurnAt(seqs, x, n);
      if x == sender {
        forall i: nat ensures !TurnAt(seqs[..n], sender, i) {
          assert i < n ==> seqs[i].0 != seqs[n].0;
        }
        CleanOthers(c, s, seqs[..n], now, sender);
        ViewBlockedAt(s, before, sender, seqNo);
        OwnClock(c, before, sender, seqNo, now, t);
        ViewClock(s, before, sender);
      } else {
        CleanElsewhere(c, before, x, seqNo, now, sender);
        ViewClock(before, CleanSenders(c, s, seqs, now).state, sender);
        ViewBlocked(before, CleanSenders(c, s, seqs, now).state, sender);
        TurnsBefore(seqs, sender);
        CleanClock(c, s, seqs[..n], now, sender, t);
        SawMore(s, seqs, now, sender);
      }
    } else {
      CleanOthers(c, s, seqs, now, sender);
      ViewClock(s, CleanSenders(c, s, seqs, now).state, sender);
    }
  }

  /** What a clean-up leaves of a visited sender, in terms of the state before it. */
  lemma {:induction false} CleanVisits(c: Config, s: State, seqs: seq<(string, nat)>, now: int, sender: string, i: nat)
    requires DistinctSenders(seqs) && TurnAt(seqs, sender, i) && sender in s.infos
    ensures var t := CleanSenders(c, s, seqs, now).state;
            && (if Overdue(c, s, sender, seqs[i].1, now) then NoncesOf(t.queued, sender) == {}
                else NoncesOf(t.queued, sender) == NoncesOf(CutBelow(s.queued, sender, seqs[i].1), sender))
            && (BlockedAt(s, sender, seqs[i].1) && !Overdue(c, s, sender, seqs[i].1, now) ==>
                  Clock(t, sender) == if Clock(s, sender).Some? then Clock(s, sender) else Some(now))
  {
    hide CleanSender, BlockedAt, SameView, Blocked, NoncesOf, Clock;
    var n := |seqs| - 1;
    var before := CleanSenders(c, s, seqs[..n], now).state;
    var (x, seqNo) := seqs[n];
    var t := CleanSenders(c, s, seqs, now).state;
    if i == n {
      forall j: nat ensures !TurnAt(seqs[..n], sender, j) {
        assert j < n ==> seqs[j].0 != seqs[n].0;
      }
      CleanOthers(c, s, seqs[..n], now, sender);
      ViewBlockedAt(s, before, sender, seqNo);
      ViewClock(s, before, sender);
      ViewKnows(s, before, sender);
      OwnTurn(c, before, sender, seqNo, now);
      OwnQueue(c, before, sender, seqNo, now);
      CutSame(s.queued, before.queued, sender, seqNo);
    } else {
      assert x != sender by { assert seqs[i].0 != seqs[n].0; }
      assert seqs[..n][i] == seqs[i] && TurnAt(seqs[..n], sender, i);
      CleanVisits(c, s, seqs[..n], now, sender, i);
      CleanElsewhere(c, before, x, seqNo, now, sender);
      ViewClock(before, t, sender);
      ViewKnows(before, t, sender);
    }
  }

  lemma ViewKnows(s: State, t: State, sender: string)
    requires SameView(s, t, sender)
    ensures sender in s.infos <==> sender in t.infos
    ensures NoncesOf(s.queued, sender) == NoncesOf(t.queued, sender)
  {
  }

  lemma OwnClock(c: Config, s: State, sender: string, seqNo: nat, now: int, t: int)
    requires Clock(CleanSender(c, s, sender, seqNo, now).state, sender) == Some(t)
    ensures BlockedAt(s, sender, seqNo) && Blocked(CleanSender(c, s, sender, seqNo, now).state, sender)
    ensures Clock(s, sender) == Some(t) || (Clock(s, sender) == None && now == t)
  {
    hide BlockedAt, Blocked, Cleanup, Expire, RemoveStale;
    if sender in s.infos {
      OwnTurn(c, s, sender, seqNo, now);
    }
  }

  lemma ViewClock(s: State, t: State, sender: string)
    requires SameView(s, t, sender)
    ensures Clock(s, sender) == Clock(t, sender)
  {
  }

  lemma TurnsBefore(seqs: seq<(string, nat)>, sender: string)
    requires Visits(seqs, sender) && seqs[|seqs| - 1].0 != sender
    ensures Visits(seqs[..|seqs| - 1], sender)
  {
    var i: nat :| TurnAt(seqs, sender, i);
    assert TurnAt(seqs[..|seqs| - 1], sender, i);
  }

  lemma SawMore(s: State, seqs: seq<(string, nat)>, now: int, sender: string)
    requires seqs != [] && SawGap(s, DoClean(seqs[..|seqs| - 1], now), sender)
    ensures SawGap(s, DoClean(seqs, now), sender)
  {
    hide BlockedAt;
    var init := seqs[..|seqs| - 1];
    var i: nat :| TurnAt(init, sender, i) && BlockedAt(s, sender, init[i].1);
    assert TurnAt(seqs, sender, i) && seqs[i] == init[i];
  }

  // ---- runs -----------------------------------------------------------------------------------

  /** Each clean-up visits a sender once, as the keys of a map. */
  ghost predicate DistinctCleans(steps: seq<Step>) {
    forall i {:trigger steps[i]} :: 0 <= i < |steps| && steps[i].DoClean? ==> DistinctSenders(steps[i].seqs)
  }

  lemma StepClock(c: Config, s: State, step: Step, sender: string, t: int)
    requires step.DoClean? ==> DistinctSenders(step.seqs)
    requires Clock(Apply(c, s, step).state, sender) == Some(t)
    ensures || (Clock(s, sender) == Some(t) && (Inspects(step, sender) ==> SawGap(s, step, sender)))
            || (Clock(s, sender) == None && SawGap(s, step, sender) && step.now == t)
    ensures Inspects(step, sender) ==> Blocked(Apply(c, s, step).state, sender)
  {
    hide SawGap, Blocked;
    if step.DoClean? {
      hide CleanSenders, EventsOf, Visits;
      CleanClock(c, s, step.seqs, step.now, sender, t);
    } else {
      hide Apply;
      StepSteady(c, s, step, sender);
    }
  }

  /** Since step `i`, the clean-up that started the clock, every clean-up that visited the sender found it blocked. */
  ghost predicate SeenSince(c: Config, steps: seq<Step>, sender: string, t: int, i: nat) {
    && i < |steps| && steps[i].DoClean? && steps[i].now == t && SawGap(After(c, EMPTY, steps[..i]), steps[i], sender)
    && (forall j {:trigger steps[j]} :: i < j < |steps| && Inspects(steps[j], sender) ==>
          SawGap(After(c, EMPTY, steps[..j]), steps[j], sender))
    && (forall j {:trigger steps[..j]} :: i < j <= |steps| ==> Clock(After(c, EMPTY, steps[..j]), sender) == Some(t))
  }

  /** Over any run: a gap clock showing `t` was started by a clean-up at time `t` that found the sender blocked, and
      every later clean-up that visited the sender found it blocked too. */
  lemma {:induction false} ClockMeans(c: Config, steps: seq<Step>, sender: string, t: int) returns (i: nat)
    requires DistinctCleans(steps) && Clock(After(c, EMPTY, steps), sender) == Some(t)
    ensures SeenSince(c, steps, sender, t, i)
    decreases |steps|
  {
    hide Apply, SawGap, Inspects, DistinctSenders;
    var n := |steps| - 1;
    var init := steps[..n];
    var s := After(c, EMPTY, init);
    assert forall j {:trigger init[j]} :: 0 <= j < n ==> init[j] == steps[j];
    assert steps[n].DoClean? ==> DistinctSenders(steps[n].seqs);
    StepClock(c, s, steps[n], sender, t);
    if Clock(s, sender) == Some(t) {
      i := ClockMeans(c, init, sender, t);
      SeenLonger(c, steps, sender, t, i);
    } else {
      i := n;
      ShowsClean(s, steps[n], sender);
      SeenFirst(c, steps, sender, t);
    }
  }

  lemma ShowsClean(s: State, step: Step, sender: string)
    requires SawGap(s, step, sender)
    ensures step.DoClean?
  {
  }

  lemma SeenFirst(c: Config, steps: seq<Step>, sender: string, t: int)
    requires steps != [] && Clock(After(c, EMPTY, steps), sender) == Some(t)
    requires var n := |steps| - 1;
             steps[n].DoClean? && steps[n].now == t && SawGap(After(c, EMPTY, steps[..n]), steps[n], sender)
    ensures SeenSince(c, steps, sender, t, |steps| - 1)
  {
    hide After, SawGap, Inspects;
    assert steps[..|steps|] == steps;
  }

  lemma SeenLonger(c: Config, steps: seq<Step>, sender: string, t: int, i: nat)
    requires steps != [] && SeenSince(c, steps[..|steps| - 1], sender, t, i)
    requires Clock(After(c, EMPTY, steps), sender) == Some(t)
    requires var n := |steps| - 1;
             Inspects(steps[n], sender) ==> SawGap(After(c, EMPTY, steps[..n]), steps[n], sender)
    ensures SeenSince(c, steps, sender, t, i)
  {
    hide After, SawGap, Inspects;
    var n := |steps| - 1;
    var init := steps[..n];
    assert init[..i] == steps[..i] && init[i] == steps[i];
    forall j {:trigger steps[j]} | i < j < |steps| && Inspects(steps[j], sender)
      ensures SawGap(After(c, EMPTY, steps[..j]), steps[j], sender)
    {
      if j < n {
        assert init[j] == steps[j] && init[..j] == steps[..j];
      }
    }
    forall j {:trigger steps[..j]} | i < j <= |steps| ensures Clock(After(c, EMPTY, steps[..j]), sender) == Some(t) {
      if j <= n {
        assert init[..j] == steps[..j];
      } else {
        assert steps[..j] == steps;
      }
    }
  }

  // ---- expiry ---------------------------------------------------------------------------------

  /** A clean-up that drops a queued transaction which is not stale has found the sender blocked, and so has every
      clean-up that visited the sender since one at least the time-to-live earlier; and it drops the whole queue. */
  lemma ExpiryNeedsTtl(c: Config, steps: seq<Step>, seqs: seq<(string, nat)>, now: int, k: Key)
    returns (t: int, i: nat)
    requires DistinctCleans(steps) && DistinctSenders(seqs)
    requires var s := After(c, EMPTY, steps);
             k in s.queued && k !in CleanSenders(c, s, seqs, now).state.queued
    requires forall j: nat {:trigger TurnAt(seqs, k.sender, j)} :: TurnAt(seqs, k.sender, j) ==> k.nonce >= seqs[j].1
    ensures var s := After(c, EMPTY, steps);
            && t + c.queuedGapTTL <= now && SeenSince(c, steps, k.sender, t, i)
            && SawGap(s, DoClean(seqs, now), k.sender)
            && NoncesOf(CleanSenders(c, s, seqs, now).state.queued, k.sender) == {}
  {
    hide After, SeenSince, BlockedAt, CleanSenders, DistinctSenders;
    var s := After(c, EMPTY, steps);
    t := DropMeans(c, s, seqs, now, k);
    i := ClockMeans(c, steps, k.sender, t);
  }

  lemma DropMeans(c: Config, s: State, seqs: seq<(string, nat)>, now: int, k: Key) returns (t: int)
    requires DistinctSenders(seqs) && k in s.queued && k !in CleanSenders(c, s, seqs, now).state.queued
    requires forall j: nat {:trigger TurnAt(seqs, k.sender, j)} :: TurnAt(seqs, k.sender, j) ==> k.nonce >= seqs[j].1
    ensures Clock(s, k.sender) == Some(t) && t + c.queuedGapTTL <= now && SawGap(s, DoClean(seqs, now), k.sender)
    ensures NoncesOf(CleanSenders(c, s, seqs, now).state.queued, k.sender) == {}
  {
    hide CleanSenders, BlockedAt, DistinctSenders, CutBelow;
    var u := CleanSenders(c, s, seqs, now).state;
    assert Key(k.sender, k.nonce) in s.queued && Key(k.sender, k.nonce) !in u.queued;
    assert k.nonce in NoncesOf(s.queued, k.sender) && k.nonce !in NoncesOf(u.queued, k.sender);
    if Visits(seqs, k.sender) && k.sender in s.infos {
      var j: nat :| TurnAt(seqs, k.sender, j);
      CleanVisits(c, s, seqs, now, k.sender, j);
      CutNonces(s.queued, k.sender, seqs[j].1, k.nonce);
      t := Clock(s, k.sender).value;
    } else {
      StrangerStays(c, s, seqs, now, k.sender);
      t := 0;
    }
  }

  /** A sender that is not visited or not registered keeps its queue. */
  lemma {:induction false} StrangerStays(c: Config, s: State, seqs: seq<(string, nat)>, now: int, sender: string)
    requires !(Visits(seqs, sender) && sender in s.infos)
    ensures NoncesOf(CleanSenders(c, s, seqs, now).state.queued, sender) == NoncesOf(s.queued, sender)
  {
    if Visits(seqs, sender) {
      UnknownStays(c, s, seqs, now, sender);
    } else {
      CleanOthers(c, s, seqs, now, sender);
      hide NoncesOf;
    }
  }

  lemma {:induction false} UnknownStays(c: Config, s: State, seqs: seq<(string, nat)>, now: int, sender: string)
    requires sender !in s.infos
    ensures SameView(s, CleanSenders(c, s, seqs, now).state, sender)
  {
    hide CleanSender, SameView;
    if seqs == [] {
      ViewItself(s, sender);
    } else {
      var n := |seqs| - 1;
      var before := CleanSenders(c, s, seqs[..n], now).state;
      UnknownStays(c, s, seqs[..n], now, sender);
      ViewKnows(s, before, sender);
      if seqs[n].0 == sender {
        UnknownTurn(c, before, sender, seqs[n].1, now);
      } else {
        CleanElsewhere(c, before, seqs[n].0, seqs[n].1, now, sender);
      }
      ViewThen(s, before, CleanSender(c, before, seqs[n].0, seqs[n].1, now).state, sender);
    }
  }

  lemma UnknownTurn(c: Config, s: State, sender: string, seqNo: nat, now: int)
    requires sender !in s.infos
    ensures SameView(s, CleanSender(c, s, sender, seqNo, now).state, sender)
  {
  }

  /** Conversely, the clock started by a clean-up runs on as long as the sender stays registered and every clean-up that
      visits it finds it blocked before the time-to-live has passed ... */
  ghost predicate Counting(c: Config, steps: seq<Step>, sender: string, i: nat) {
    && i < |steps| && SawGap(After(c, EMPTY, steps[..i]), steps[i], sender)
    && Clock(After(c, EMPTY, steps[..i]), sender) == None
    && (forall j {:trigger steps[..j]} :: i < j <= |steps| ==> sender in After(c, EMPTY, steps[..j]).infos)
    && (forall j {:trigger steps[j]} :: i < j < |steps| && Inspects(steps[j], sender) ==>
          SawGap(After(c, EMPTY, steps[..j]), steps[j], sender) && steps[j].now < steps[i].now + c.queuedGapTTL)
  }

  lemma StepCounts(c: Config, s: State, step: Step, sender: string, t: int)
    requires step.DoClean? ==> DistinctSenders(step.seqs)
    requires sender in s.infos && sender in Apply(c, s, step).state.infos
    requires if Clock(s, sender) == None then SawGap(s, step, sender) && step.now == t
             else Clock(s, sender) == Some(t) &&
                  (Inspects(step, sender) ==> SawGap(s, step, sender) && step.now < t + c.queuedGapTTL)
    ensures Clock(Apply(c, s, step).state, sender) == Some(t)
  {
    hide BlockedAt, DistinctSenders;
    if step.DoClean? {
      hide CleanSenders, EventsOf, CutBelow;
      if Visits(step.seqs, sender) {
        var i: nat :| TurnAt(step.seqs, sender, i) && BlockedAt(s, sender, step.seqs[i].1);
        CleanVisits(c, s, step.seqs, step.now, sender, i);
      } else {
        CleanOthers(c, s, step.seqs, step.now, sender);
      }
    } else {
      hide Apply;
      StepSteady(c, s, step, sender);
    }
  }

  lemma {:induction false} CountingRuns(c: Config, steps: seq<Step>, sender: string, i: nat, j: nat)
    requires DistinctCleans(steps) && Counting(c, steps, sender, i) && i < j <= |steps|
    ensures steps[i].DoClean? && Clock(After(c, EMPTY, steps[..j]), sender) == Some(steps[i].now)
    decreases j
  {
    hide Apply, SawGap, DistinctSenders, Clock;
    var before := After(c, EMPTY, steps[..j - 1]);
    assert steps[..j][..j - 1] == steps[..j - 1] && steps[..j][j - 1] == steps[j - 1];
    ShowsClean(After(c, EMPTY, steps[..i]), steps[i], sender);
    assert sender in After(c, EMPTY, steps[..j]).infos;
    assert steps[j - 1].DoClean? ==> DistinctSenders(steps[j - 1].seqs);
    if j > i + 1 {
      CountingRuns(c, steps, sender, i, j - 1);
    } else {
      SeesRegistered(before, steps[i], sender);
    }
    StepCounts(c, before, steps[j - 1], sender, steps[i].now);
  }

  lemma SeesRegistered(s: State, step: Step, sender: string)
    requires SawGap(s, step, sender)
    ensures sender in s.infos
  {
    hide HasGap, Run;
  }

  /** ... and then the first clean-up at or after the time-to-live that finds it blocked drops its whole queue. */
  lemma GapExpires(c: Config, steps: seq<Step>, seqs: seq<(string, nat)>, now: int, sender: string, i: nat)
    requires DistinctCleans(steps) && DistinctSenders(seqs) && Counting(c, steps, sender, i)
    requires steps[i].DoClean? && steps[i].now + c.queuedGapTTL <= now
    requires SawGap(After(c, EMPTY, steps), DoClean(seqs, now), sender)
    ensures NoncesOf(CleanSenders(c, After(c, EMPTY, steps), seqs, now).state.queued, sender) == {}
  {
    hide After, BlockedAt, DistinctSenders, CleanSenders, CutBelow, NoncesOf;
    var s := After(c, EMPTY, steps);
    assert steps[..|steps|] == steps;
    CountingRuns(c, steps, sender, i, |steps|);
    SeesRegistered(s, DoClean(seqs, now), sender);
    var j: nat :| TurnAt(seqs, sender, j) && BlockedAt(s, sender, seqs[j].1);
    CleanVisits(c, s, seqs, now, sender, j);
  }
}
