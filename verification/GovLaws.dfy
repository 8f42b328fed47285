/** What governance promises about every proposal over every history, and about export and import. */
module GovLaws {
  import opened Common
  import opened GovCoins
  import opened GovTypes
  import opened GovKeepers

  // ---- voting ends ----------------------------------------------------------------------------

  /** A proposal still voting after its end time. */
  predicate Overdue(now: int, p: Proposal) {
    p.status == VotingPeriod && p.votingEnd.Some? && p.votingEnd.value <= now
  }

  /** After a block, a proposal is overdue in exactly four cases: it was expedited, failed in this block, and its
      extended period is over already, as an ordinary proposal or stranded now; it became an emergency so late that
      its first tally lies beyond its voting end; or it was stranded before. */
  lemma OverdueExactly(params: Params, now: int, r: Record, t: Tally, executes: bool)
    requires Sound(r) && r.proposal.Some? && params.interval > 0
    ensures var p := r.proposal.value;
            var q := Turn(params, now, r, t, executes).proposal;
            (q.Some? && Overdue(now, q.value)) <==>
              || (DueActive(now, p) && p.expedited && !t.passed && p.votingStart.value + params.votingPeriod <= now)
              || (Strands(now, r, t) && p.votingStart.value + params.votingPeriod <= now)
              || (Overdue(now, p) && r.watched && p.nextTally.value > now)
              || (Overdue(now, p) && Stranded(r))
  {
  }

  /** The third case happens: an emergency raised one nanosecond before the voting end outlives it. */
  lemma LateEmergencyOutlivesVoting(params: Params, r: Record, now: int, who: string, t: Tally, executes: bool)
    requires r.proposal.Some? && MayAlarm(params, r.proposal.value, who)
    requires r.proposal.value.votingEnd == Some(now) && params.interval > 1
    ensures var raised := Happens(params, r, Raised(now - 1, who));
            var q := Happens(params, raised, Block(now, t, executes)).proposal;
            q.Some? && Overdue(now, q.value)
  {
  }

  // ---- histories ------------------------------------------------------------------------------

  /** The record after a list of events. */
  ghost function Then(params: Params, r: Record, events: seq<Happening>): Record {
    if events == [] then r
    else Happens(params, Then(params, r, events[..|events| - 1]), events[|events| - 1])
  }

  ghost predicate AllBlocks(events: seq<Happening>) {
    forall i {:trigger events[i]} :: 0 <= i < |events| ==> events[i].Block?
  }

  lemma {:induction false} ThenThen(params: Params, r: Record, xs: seq<Happening>, ys: seq<Happening>)
    ensures Then(params, r, xs + ys) == Then(params, Then(params, r, xs), ys)
    decreases |ys|
  {
    if ys == [] {
      assert xs + ys == xs;
    } else {
      var n := |ys| - 1;
      assert (xs + ys)[..|xs + ys| - 1] == xs + ys[..n] && (xs + ys)[|xs + ys| - 1] == ys[n];
      ThenThen(params, r, xs, ys[..n]);
    }
  }

  lemma {:induction false} ThenSound(params: Params, r: Record, events: seq<Happening>)
    requires Sound(r)
    ensures Sound(Then(params, r, events))
  {
    if events != [] {
      var n := |events| - 1;
      ThenSound(params, r, events[..n]);
      StrandsExactly(params, Then(params, r, events[..n]), events[n]);
    }
  }

  // ---- stranded proposals ---------------------------------------------------------------------

  /** Some block of the list strands the proposal. */
  ghost predicate StrandsIn(params: Params, r: Record, blocks: seq<Happening>) {
    exists k {:trigger blocks[k]} ::
      0 <= k < |blocks| && blocks[k].Block? && Strands(blocks[k].now, Then(params, r, blocks[..k]), blocks[k].tally)
  }

  lemma StrandsInLast(params: Params, r: Record, blocks: seq<Happening>)
    requires AllBlocks(blocks) && blocks != []
    ensures var n := |blocks| - 1;
            StrandsIn(params, r, blocks) <==>
              StrandsIn(params, r, blocks[..n]) || Strands(blocks[n].now, Then(params, r, blocks[..n]), blocks[n].tally)
  {
    hide Strands, Then;
    var n := |blocks| - 1;
    if StrandsIn(params, r, blocks[..n]) {
      var k :| 0 <= k < n && blocks[..n][k].Block? &&
               Strands(blocks[..n][k].now, Then(params, r, blocks[..n][..k]), blocks[..n][k].tally);
      assert blocks[..n][..k] == blocks[..k] && blocks[..n][k] == blocks[k];
    }
    if StrandsIn(params, r, blocks) {
      var k :| 0 <= k < |blocks| && Strands(blocks[k].now, Then(params, r, blocks[..k]), blocks[k].tally);
      if k < n {
        assert blocks[..n][..k] == blocks[..k] && blocks[..n][k] == blocks[k];
      }
    }
  }

  /** Over any blocks, a proposal ends up stranded exactly when it was, or when one of them strands it. */
  lemma {:induction false} StrandedExactly(params: Params, r: Record, blocks: seq<Happening>)
    requires Sound(r) && AllBlocks(blocks)
    ensures Stranded(Then(params, r, blocks)) <==> Stranded(r) || StrandsIn(params, r, blocks)
  {
    if blocks != [] {
      var n := |blocks| - 1;
      StrandedExactly(params, r, blocks[..n]);
      ThenSound(params, r, blocks[..n]);
      StrandsInLast(params, r, blocks);
      StrandsExactly(params, Then(params, r, blocks[..n]), blocks[n]);
    }
  }

  /** No block ever touches a stranded proposal or its deposits again. */
  lemma {:induction false} StrandedStays(params: Params, r: Record, blocks: seq<Happening>)
    requires Stranded(r) && AllBlocks(blocks)
    ensures Then(params, r, blocks) == r
  {
    if blocks != [] {
      StrandedStays(params, r, blocks[..|blocks| - 1]);
    }
  }

  /** Nothing taken away: every depositor still has at least as much in it. */
  ghost predicate Holds(before: Option<map<string, Coins>>, after: Option<map<string, Coins>>) {
    before.Some? ==>
      && after.Some?
      && forall who {:trigger who in before.value} ::
           who in before.value ==> who in after.value && before.value[who] <= after.value[who]
  }

  /** Once its voting end has passed, no message helps a stranded proposal either: its deposits are never paid out. */
  lemma {:induction false} StrandedForever(params: Params, r: Record, events: seq<Happening>)
    requires Stranded(r) && r.proposal.value.votingEnd.Some?
    requires forall i {:trigger events[i]} :: 0 <= i < |events| ==> r.proposal.value.votingEnd.value < events[i].now
    ensures var s := Then(params, r, events);
            && Stranded(s) && s.proposal.value.votingEnd == r.proposal.value.votingEnd
            && s.paid == r.paid && Holds(r.deposits, s.deposits)
  {
    if events != [] {
      var n := |events| - 1;
      StrandedForever(params, r, events[..n]);
      var s := Then(params, r, events[..n]);
      assert events[n].now > r.proposal.value.votingEnd.value;
      match events[n]
      case Submitted(now, expedited) =>
      case Deposited(now, d) =>
      case Raised(now, who) =>
      case Voted(now, who, choice, valid) =>
      case Cancelled(now, byProposer) =>
      case Block(now, t, executes) =>
    }
  }

  /** Parameters with one, two and three coins as the three minimum deposits. */
  ghost const EXAMPLE := Params(false, 100, 50, 30, 10, multiset{"init"}, multiset{"init", "init"},
                                multiset{"init", "init", "init"}, 0, {"submitter"})

  ghost const DEPOSIT := Deposit("submitter", multiset{"init", "init", "init"}, true)

  ghost const FIRST := Submitted(0, true)

  ghost const SECOND := Deposited(0, DEPOSIT)

  ghost const THIRD := Block(10, Tally(true, false, false, 0), false)

  /** It happens: an expedited proposal that becomes an emergency with its first deposit and then fails its first tally,
      with a quorum, is stranded with its deposit, and no later block changes that. */
  lemma StrandingHappens(blocks: seq<Happening>)
    requires AllBlocks(blocks)
    ensures var r := After(EXAMPLE, [FIRST, SECOND, THIRD] + blocks);
            Stranded(r) && r.deposits == Some(map["submitter" := DEPOSIT.amount]) && r.paid == []
  {
    hide Then, Stranded;
    ExampleStrands();
    ThenThen(EXAMPLE, BLANK, [FIRST, SECOND, THIRD], blocks);
    StrandedStays(EXAMPLE, After(EXAMPLE, [FIRST, SECOND, THIRD]), blocks);
  }

  lemma ExampleStrands()
    ensures var r := After(EXAMPLE, [FIRST, SECOND, THIRD]);
            Stranded(r) && r.deposits == Some(map["submitter" := DEPOSIT.amount]) && r.paid == []
  {
    hide Happens, Then, Stranded;
    ThenOne(EXAMPLE, [], FIRST);
    ThenOne(EXAMPLE, [FIRST], SECOND);
    ThenOne(EXAMPLE, [FIRST, SECOND], THIRD);
    assert [] + [FIRST] == [FIRST] && [FIRST] + [SECOND] == [FIRST, SECOND];
    assert [FIRST, SECOND] + [THIRD] == [FIRST, SECOND, THIRD];
    EnterExample();
    var r := Happens(EXAMPLE, BLANK, FIRST);
    DepositAlarms(r);
    TallyStrands(Happens(EXAMPLE, r, SECOND));
  }

  lemma ThenOne(params: Params, events: seq<Happening>, e: Happening)
    ensures Then(params, BLANK, events + [e]) == Happens(params, Then(params, BLANK, events), e)
    ensures Then(params, BLANK, []) == BLANK
  {
    hide Happens;
    assert (events + [e])[..|events|] == events;
  }

  lemma EnterExample()
    ensures Happens(EXAMPLE, BLANK, Submitted(0, true)) == BLANK.(proposal := Some(NewProposal(EXAMPLE, 0, true)))
  {
  }

  lemma TallyStrands(r: Record)
    requires r.proposal.Some? && r.watched && r.proposal.value.status == VotingPeriod && r.proposal.value.emergency
    requires r.proposal.value.expedited && r.proposal.value.nextTally == Some(10)
    requires r.proposal.value.votingEnd == Some(50) && r.proposal.value.votingStart == Some(0)
    ensures var s := Happens(EXAMPLE, r, Block(10, Tally(true, false, false, 0), false));
            Stranded(s) && s.deposits == r.deposits && s.paid == r.paid
  {
  }

  lemma DepositAlarms(r: Record)
    requires r == BLANK.(proposal := Some(NewProposal(EXAMPLE, 0, true)))
    ensures var s := Happens(EXAMPLE, r, Deposited(0, DEPOSIT));
            && s.proposal.Some? && s.watched && s.deposits == Some(map["submitter" := DEPOSIT.amount]) && s.paid == []
            && s.proposal.value.status == VotingPeriod && s.proposal.value.emergency && s.proposal.value.expedited
            && s.proposal.value.nextTally == Some(10) && s.proposal.value.votingEnd == Some(50)
            && s.proposal.value.votingStart == Some(0)
  {
    var p := r.proposal.value;
    assert multiset{} + DEPOSIT.amount == DEPOSIT.amount;
    assert Acceptable(EXAMPLE, p, DEPOSIT);
    assert MinDepositOf(EXAMPLE, p) <= p.total + DEPOSIT.amount;
  }

  /** Only proposals submitted as expedited are at risk. */
  lemma {:induction false} RegularNeverStrands(params: Params, events: seq<Happening>)
    requires forall i {:trigger events[i]} :: 0 <= i < |events| && events[i].Submitted? ==> !events[i].expedited
    ensures !Stranded(After(params, events))
    ensures var r := After(params, events); Sound(r) && (r.proposal.Some? ==> !r.proposal.value.expedited)
  {
    if events != [] {
      var n := |events| - 1;
      var r := After(params, events[..n]);
      RegularNeverStrands(params, events[..n]);
      StrandsExactly(params, r, events[n]);
      assert events[n].Submitted? ==> !events[n].expedited;
      RegularStays(params, r, events[n]);
    }
  }

  lemma RegularStays(params: Params, r: Record, e: Happening)
    requires r.proposal.Some? ==> !r.proposal.value.expedited
    requires e.Submitted? ==> !e.expedited
    ensures var s := Happens(params, r, e); s.proposal.Some? ==> !s.proposal.value.expedited
  {
    match e
    case Submitted(now, expedited) =>
    case Deposited(now, d) =>
    case Raised(now, who) =>
    case Voted(now, who, choice, valid) =>
    case Cancelled(now, byProposer) =>
    case Block(now, t, executes) =>
  }

  // ---- emergency tallies ----------------------------------------------------------------------

  function Max(x: int, y: int): int { if x < y then y else x }

  /** How often an interval must be added to cover a distance: the ceiling of their quotient. */
  function Rounds(distance: int, interval: int): nat
    requires interval > 0
    decreases distance
  {
    if distance <= 0 then 0 else 1 + Rounds(distance - interval, interval)
  }

  lemma {:induction false} RoundsIsCeiling(distance: int, interval: int)
    requires interval > 0 && distance > 0
    ensures (Rounds(distance, interval) - 1) * interval < distance <= Rounds(distance, interval) * interval
    decreases distance
  {
    var n := Rounds(distance - interval, interval);
    assert n * interval + interval == (n + 1) * interval;
    if distance > interval {
      RoundsIsCeiling(distance - interval, interval);
      assert (n - 1) * interval + interval == n * interval;
    }
  }

  lemma {:induction false} RoundsMonotone(shorter: int, distance: int, interval: int)
    requires interval > 0 && shorter <= distance
    ensures Rounds(shorter, interval) <= Rounds(distance, interval)
    decreases distance
  {
    if shorter > 0 {
      RoundsMonotone(shorter - interval, distance - interval, interval);
    }
  }

  /** Rescheduling moves the tally strictly past the block time, not past the voting end, and one interval closer to
      it. */
  lemma RescheduleAdvances(params: Params, now: int, p: Proposal)
    requires params.interval > 0 && p.nextTally.Some? && p.nextTally.value <= now
    requires p.votingEnd.Some? && p.votingEnd.value > now
    ensures var q := Rescheduled(params, now, p);
            && now < q.nextTally.value <= q.votingEnd.value == p.votingEnd.value
            && Rounds(q.votingEnd.value - q.nextTally.value, params.interval) + 1
                 <= Rounds(p.votingEnd.value - p.nextTally.value, params.interval)
  {
    var q := Rescheduled(params, now, p);
    var distance := p.votingEnd.value - p.nextTally.value;
    RoundsMonotone(Max(0, distance - params.interval), distance, params.interval);
    RoundsMonotone(q.votingEnd.value - q.nextTally.value, Max(0, distance - params.interval), params.interval);
  }

  /** A block changes a voting emergency proposal exactly when it tallies it. */
  lemma TallyShows(params: Params, now: int, r: Record, t: Tally, executes: bool)
    requires Sound(r) && r.watched && params.interval > 0
    ensures Turn(params, now, r, t, executes) != r <==> DueEmergency(now, r)
  {
    var p := r.proposal.value;
    if DueEmergency(now, r) && !t.quorum && p.votingEnd.value > now {
      RescheduleAdvances(params, now, p);
    }
  }

  /** Everything that can still happen to a proposal once it exists. */
  ghost predicate Later(events: seq<Happening>) {
    forall i {:trigger events[i]} :: 0 <= i < |events| ==> !events[i].Submitted?
  }

  /** How many blocks of a history find the proposal's emergency tally due. */
  ghost function Tallies(params: Params, r: Record, events: seq<Happening>): nat {
    if events == [] then 0
    else
      var init, last := events[..|events| - 1], events[|events| - 1];
      Tallies(params, r, init) + if last.Block? && DueEmergency(last.now, Then(params, r, init)) then 1 else 0
  }

  /** An upper bound on the tallies still to come. */
  function TalliesLeft(params: Params, r: Record): nat
    requires Sound(r) && params.interval > 0
  {
    if !r.watched then 0
    else Rounds(r.proposal.value.votingEnd.value - r.proposal.value.nextTally.value, params.interval) + 1
  }

  /** An emergency proposal was concluded, and then nothing is held, is stranded, or waits in the queue. */
  ghost predicate Emergency(r: Record) {
    && Sound(r) && (r.watched || Stranded(r) || Concluded(r))
    && (Concluded(r) ==> r.deposits.None?)
  }

  /** Its deposits are no longer at stake. */
  predicate Concluded(r: Record) { r.proposal.None? || !Open(r.proposal.value) }

  lemma BlockUsesTally(params: Params, r: Record, e: Happening)
    requires Emergency(r) && params.interval > 0 && e.Block?
    ensures var s := Happens(params, r, e);
            && Emergency(s)
            && TalliesLeft(params, s) + (if DueEmergency(e.now, r) then 1 else 0) <= TalliesLeft(params, r)
  {
    if DueEmergency(e.now, r) {
      var p := r.proposal.value;
      if !e.tally.quorum && p.votingEnd.value > e.now {
        RescheduleAdvances(params, e.now, p);
      }
    }
  }

  /** No message moves a tally or the voting end of an emergency proposal. */
  lemma MessageUsesNone(params: Params, r: Record, e: Happening)
    requires Emergency(r) && !e.Block? && !e.Submitted?
    ensures var s := Happens(params, r, e);
            && Emergency(s)
            && (s.watched ==> r.watched && s.proposal.value.votingEnd == r.proposal.value.votingEnd &&
                              s.proposal.value.nextTally == r.proposal.value.nextTally)
  {
    hide Acceptable;
    match e
    case Deposited(now, d) =>
    case Raised(now, who) =>
    case Voted(now, who, choice, valid) =>
    case Cancelled(now, byProposer) =>
  }

  lemma EventUsesTally(params: Params, r: Record, e: Happening)
    requires Emergency(r) && params.interval > 0 && !e.Submitted?
    ensures var s := Happens(params, r, e);
            && Emergency(s)
            && TalliesLeft(params, s) + (if e.Block? && DueEmergency(e.now, r) then 1 else 0) <= TalliesLeft(params, r)
  {
    hide Happens;
    if e.Block? {
      BlockUsesTally(params, r, e);
    } else {
      MessageUsesNone(params, r, e);
    }
  }

  lemma {:induction false} TalliesUsed(params: Params, r: Record, events: seq<Happening>)
    requires Emergency(r) && params.interval > 0 && Later(events)
    ensures Emergency(Then(params, r, events))
    ensures Tallies(params, r, events) + TalliesLeft(params, Then(params, r, events)) <= TalliesLeft(params, r)
  {
    hide Happens, Emergency, TalliesLeft, DueEmergency;
    if events != [] {
      var n := |events| - 1;
      assert !events[n].Submitted?;
      TalliesUsed(params, r, events[..n]);
      EventUsesTally(params, Then(params, r, events[..n]), events[n]);
    }
  }

  /** Whatever the block times, and whatever votes, deposits and cancellations come between, at most
      `ceil((end - first tally) / interval) + 1` blocks tally an emergency proposal; and a block at or past both its
      voting end and its next tally leaves it concluded with nothing held, or stranded. */
  lemma TalliesAreBounded(params: Params, r: Record, events: seq<Happening>)
    requires Sound(r) && r.watched && params.interval > 0 && Later(events)
    ensures var p := r.proposal.value;
            Tallies(params, r, events) <= Rounds(p.votingEnd.value - p.nextTally.value, params.interval) + 1
    ensures var p := r.proposal.value;
            var s := Then(params, r, events);
            var n := |events| - 1;
            n >= 0 && events[n].Block? && Max(p.votingEnd.value, p.nextTally.value) <= events[n].now ==>
              Stranded(s) || (Concluded(s) && s.deposits.None?)
  {
    hide Then, Tallies;
    TalliesUsed(params, r, events);
    var p := r.proposal.value;
    var n := |events| - 1;
    if n >= 0 && events[n].Block? && Max(p.votingEnd.value, p.nextTally.value) <= events[n].now {
      EmergencyEnds(params, r, events);
    }
  }

  /** A tally not due yet is due by the voting end, or was scheduled beyond it from the start. */
  lemma {:induction false} TallyByTheEnd(params: Params, r: Record, events: seq<Happening>)
    requires Sound(r) && r.watched && params.interval > 0 && Later(events)
    ensures var p := r.proposal.value;
            var s := Then(params, r, events);
            && Emergency(s)
            && (s.watched ==> s.proposal.value.votingEnd == p.votingEnd)
            && (s.watched ==> s.proposal.value.nextTally.value <= Max(p.votingEnd.value, p.nextTally.value))
  {
    if events != [] {
      var n := |events| - 1;
      TallyByTheEnd(params, r, events[..n]);
      assert !events[n].Submitted?;
      TallyStays(params, Then(params, r, events[..n]), events[n]);
      hide Happens, Emergency;
    }
  }

  lemma TallyStays(params: Params, r: Record, e: Happening)
    requires Emergency(r) && params.interval > 0 && !e.Submitted?
    ensures var s := Happens(params, r, e);
            && Emergency(s)
            && (s.watched ==>
                 && r.watched && s.proposal.value.votingEnd == r.proposal.value.votingEnd
                 && s.proposal.value.nextTally.value <=
                      Max(r.proposal.value.votingEnd.value, r.proposal.value.nextTally.value))
  {
    if !e.Block? {
      MessageUsesNone(params, r, e);
      hide Happens, Emergency;
    }
  }

  lemma EmergencyEnds(params: Params, r: Record, events: seq<Happening>)
    requires Sound(r) && r.watched && params.interval > 0 && Later(events)
    requires events != [] && events[|events| - 1].Block?
    requires var p := r.proposal.value;
             Max(p.votingEnd.value, p.nextTally.value) <= events[|events| - 1].now
    ensures var s := Then(params, r, events); Stranded(s) || Concluded(s)
  {
    var n := |events| - 1;
    TallyByTheEnd(params, r, events[..n]);
    EndedByBlock(params, Then(params, r, events[..n]), events[n]);
    hide Happens, Emergency;
  }

  /** With blocks only, the two outcomes are told apart: it is stranded, with everything still held, exactly when one of
      them strands it. */
  lemma EmergencySettles(params: Params, r: Record, blocks: seq<Happening>)
    requires Sound(r) && r.watched && params.interval > 0 && AllBlocks(blocks) && blocks != []
    requires var p := r.proposal.value;
             Max(p.votingEnd.value, p.nextTally.value) <= blocks[|blocks| - 1].now
    ensures var s := Then(params, r, blocks);
            if StrandsIn(params, r, blocks) then Stranded(s) && s.paid == r.paid && s.deposits == r.deposits
            else Concluded(s) && s.deposits.None?
  {
    hide Then, StrandsIn;
    EmergencyEnds(params, r, blocks);
    StrandedExactly(params, r, blocks);
    BlocksPay(params, r, blocks);
  }

  lemma EndedByBlock(params: Params, r: Record, e: Happening)
    requires Emergency(r) && e.Block?
    requires r.watched ==> Max(r.proposal.value.votingEnd.value, r.proposal.value.nextTally.value) <= e.now
    ensures var s := Happens(params, r, e); Stranded(s) || Concluded(s)
  {
  }

  // ---- deposits -------------------------------------------------------------------------------

  ghost function After(params: Params, events: seq<Happening>): Record {
    Then(params, BLANK, events)
  }

  /** A deposit that is accepted. */
  ghost predicate Counts(params: Params, r: Record, e: Happening) {
    e.Deposited? && r.proposal.Some? && Open(r.proposal.value) && Acceptable(params, r.proposal.value, e.deposit)
  }

  /** Everything deposited so far, per depositor. */
  ghost function Given(params: Params, events: seq<Happening>): map<string, Coins> {
    if events == [] then map[]
    else
      var init := events[..|events| - 1];
      var r := After(params, init);
      var e := events[|events| - 1];
      if Counts(params, r, e) then
        Added(Given(params, init), e.deposit.who, e.deposit.amount)
      else Given(params, init)
  }

  /** The deposits are held while the proposal is open and were paid out at most once, the proposal's total is their
      sum, and votes are kept only while it is voting. */
  ghost predicate Accounted(r: Record, given: map<string, Coins>) {
    && Sound(r)
    && (r.deposits.Some? ==> r.proposal.Some? && Open(r.proposal.value) && r.paid == [] && r.deposits.value == given)
    && (r.deposits.None? && r.paid == [] ==> given == map[])
    && (r.paid != [] ==> |r.paid| == 1 && r.paid[0].amounts == given && Concluded(r))
    && (r.proposal.Some? ==> r.proposal.value.total == Sum(given))
    && (r.votes != map[] ==> r.proposal.Some? && r.proposal.value.status == VotingPeriod)
  }

  lemma EventAccounted(params: Params, r: Record, given: map<string, Coins>, e: Happening)
    requires Accounted(r, given)
    ensures Accounted(Happens(params, r, e),
                      if Counts(params, r, e) then Added(given, e.deposit.who, e.deposit.amount) else given)
  {
    hide Acceptable, Sum;
    match e
    case Submitted(now, expedited) => NothingHeld();
    case Deposited(now, d) =>
      SumAdded(given, d.who, d.amount);
      StrandsExactly(params, r, e);
    case Raised(now, who) =>
    case Voted(now, who, choice, valid) =>
    case Cancelled(now, byProposer) =>
    case Block(now, t, executes) => BlockAccounted(params, r, given, now, t, executes);
  }

  lemma BlockAccounted(params: Params, r: Record, given: map<string, Coins>, now: int, t: Tally, executes: bool)
    requires Accounted(r, given)
    ensures Accounted(Turn(params, now, r, t, executes), given)
  {
    hide Sum;
    var e := Block(now, t, executes);
    StrandsExactly(params, r, e);
    BlockPays(params, r, e);
  }

  /** Over any history, every proposal's deposits are held in full until they are refunded, burned or charged, all at
      once and at most once; afterwards the proposal takes no more. */
  lemma {:induction false} DepositsSettleOnce(params: Params, events: seq<Happening>)
    ensures Accounted(After(params, events), Given(params, events))
  {
    if events != [] {
      DepositsSettleOnce(params, events[..|events| - 1]);
      var init := events[..|events| - 1];
      EventAccounted(params, After(params, init), Given(params, init), events[|events| - 1]);
    }
  }

  /** What blocks do to the deposits: nothing while the proposal is open; when it is concluded, all that was held is
      refunded or burned in one payout. */
  ghost predicate PaidSince(r: Record, s: Record) {
    if !Concluded(s) then s.deposits == r.deposits && s.paid == r.paid
    else
      && s.deposits.None?
      && (r.deposits.None? ==> s.paid == r.paid)
      && (r.deposits.Some? ==>
           exists how :: how != Charged && s.paid == r.paid + [Payout(r.deposits.value, how)])
  }

  /** One block: which proposals it drops or concludes, and what becomes of their deposits. */
  lemma BlockPays(params: Params, r: Record, e: Happening)
    requires Sound(r) && e.Block?
    ensures Concluded(r) ==> Happens(params, r, e) == r
    ensures !Concluded(r) ==> PaidSince(r, Happens(params, r, e))
    ensures var s := Happens(params, r, e);
            !Concluded(r) ==>
              var p := r.proposal.value;
              var tallied := DueActive(e.now, p) ||
                             (DueEmergency(e.now, r) && (e.tally.quorum || p.votingEnd.value <= e.now));
              var how := HowOf(if p.status == DepositPeriod then params.burnPrevote else e.tally.burn);
              && (Concluded(s) <==> DueInactive(e.now, p) || (tallied && (!p.expedited || e.tally.passed)))
              && (Concluded(s) && r.deposits.Some? ==> s.paid == r.paid + [Payout(r.deposits.value, how)])
  {
    if !Concluded(r) {
      var s := Happens(params, r, e);
      var how := HowOf(if r.proposal.value.status == DepositPeriod then params.burnPrevote else e.tally.burn);
      assert how != Charged;
      assert Concluded(s) && r.deposits.Some? ==> s.paid == r.paid + [Payout(r.deposits.value, how)];
    }
  }

  lemma {:induction false} BlocksPay(params: Params, r: Record, blocks: seq<Happening>)
    requires Sound(r) && !Concluded(r) && AllBlocks(blocks)
    ensures PaidSince(r, Then(params, r, blocks))
  {
    if blocks != [] {
      var n := |blocks| - 1;
      BlocksPay(params, r, blocks[..n]);
      ThenSound(params, r, blocks[..n]);
      BlockPays(params, Then(params, r, blocks[..n]), blocks[n]);
    }
  }

  /** No block moves the deadline of a proposal beyond this time. */
  function Deadline(params: Params, p: Proposal): int
    requires WellFormed(p) && Open(p)
  {
    if p.status == DepositPeriod then p.depositEnd
    else
      var end := if p.emergency then Max(p.votingEnd.value, p.nextTally.value) else p.votingEnd.value;
      if p.expedited then Max(end, p.votingStart.value + params.votingPeriod) else end
  }

  /** How many blocks past the deadline may be needed: an expedited proposal may be tallied twice. */
  function Stages(p: Proposal): nat { if p.status == VotingPeriod && p.expedited && !p.emergency then 2 else 1 }

  ghost function Late(blocks: seq<Happening>, deadline: int): nat {
    if blocks == [] then 0
    else Late(blocks[..|blocks| - 1], deadline) + if deadline <= blocks[|blocks| - 1].now then 1 else 0
  }

  /** Not concluded or stranded yet, and at most `stages` blocks past the time from being so. */
  ghost predicate Pending(params: Params, r: Record, deadline: int, stages: nat)
    requires Sound(r)
  {
    || Stranded(r) || Concluded(r)
    || (Deadline(params, r.proposal.value) <= deadline && Stages(r.proposal.value) <= stages)
  }

  lemma TurnProgress(params: Params, r: Record, e: Happening, deadline: int, stages: nat)
    requires Sound(r) && params.interval > 0 && e.Block? && Pending(params, r, deadline, stages)
    ensures Sound(Happens(params, r, e))
    ensures Pending(params, Happens(params, r, e), deadline,
                    if deadline <= e.now && stages > 0 then stages - 1 else stages)
  {
    StrandsExactly(params, r, e);
  }

  lemma {:induction false} BlocksProgress(params: Params, r: Record, blocks: seq<Happening>, deadline: int, stages: nat)
    requires Sound(r) && params.interval > 0 && AllBlocks(blocks) && Pending(params, r, deadline, stages)
    ensures Sound(Then(params, r, blocks))
    ensures var late := Late(blocks, deadline);
            Pending(params, Then(params, r, blocks), deadline, if late <= stages then stages - late else 0)
  {
    if blocks != [] {
      var n := |blocks| - 1;
      BlocksProgress(params, r, blocks[..n], deadline, stages);
      var late := Late(blocks[..n], deadline);
      TurnProgress(params, Then(params, r, blocks[..n]), blocks[n], deadline,
                   if late <= stages then stages - late else 0);
    }
  }

  /** Blocks past the deadline leave an open proposal stranded, with everything still held, if one of them strands it,
      and otherwise concluded. */
  lemma SettlesExactly(params: Params, r: Record, blocks: seq<Happening>)
    requires Sound(r) && !Concluded(r) && !Stranded(r) && params.interval > 0 && AllBlocks(blocks)
    requires Stages(r.proposal.value) <= Late(blocks, Deadline(params, r.proposal.value))
    ensures var s := Then(params, r, blocks);
            PaidSince(r, s) && if StrandsIn(params, r, blocks) then Stranded(s) else Concluded(s)
  {
    var p := r.proposal.value;
    BlocksProgress(params, r, blocks, Deadline(params, p), Stages(p));
    StrandedExactly(params, r, blocks);
    BlocksPay(params, r, blocks);
  }

  lemma {:induction false} ConcludedStays(params: Params, r: Record, blocks: seq<Happening>)
    requires Sound(r) && Concluded(r) && AllBlocks(blocks)
    ensures Then(params, r, blocks) == r
  {
    if blocks != [] {
      ConcludedStays(params, r, blocks[..|blocks| - 1]);
      BlockPays(params, r, blocks[|blocks| - 1]);
    }
  }

  /** After these blocks a proposal is past its deadlines. */
  ghost predicate Ripe(params: Params, r: Record, blocks: seq<Happening>) {
    && Sound(r) && AllBlocks(blocks)
    && (!Concluded(r) ==> Stages(r.proposal.value) <= Late(blocks, Deadline(params, r.proposal.value)))
  }

  /** Every deposit made was paid out in one payout. */
  ghost predicate SettledOnce(r: Record, given: map<string, Coins>) {
    Concluded(r) && r.deposits.None? && (given != map[] ==> |r.paid| == 1 && r.paid[0].amounts == given)
  }

  /** After any history, blocks past a proposal's deadlines have settled its deposits exactly once, if and only if none
      of them strands it; if one does, nothing has been paid out. */
  lemma SettledExactlyOnce(params: Params, events: seq<Happening>, blocks: seq<Happening>)
    requires params.interval > 0 && !Stranded(After(params, events)) && Ripe(params, After(params, events), blocks)
    ensures var s := After(params, events + blocks);
            var given := Given(params, events);
            && Given(params, events + blocks) == given
            && (SettledOnce(s, given) <==> !StrandsIn(params, After(params, events), blocks))
            && (StrandsIn(params, After(params, events), blocks) ==>
                 Stranded(s) && s.paid == [] && (given != map[] ==> s.deposits == Some(given)))
  {
    var r := After(params, events);
    DepositsSettleOnce(params, events);
    ThenThen(params, BLANK, events, blocks);
    BlocksGiveNothing(params, events, blocks);
    StrandedExactly(params, r, blocks);
    if Concluded(r) {
      ConcludedStays(params, r, blocks);
    } else {
      SettlesExactly(params, r, blocks);
    }
  }

  lemma {:induction false} BlocksGiveNothing(params: Params, events: seq<Happening>, blocks: seq<Happening>)
    requires AllBlocks(blocks)
    ensures Given(params, events + blocks) == Given(params, events)
    decreases |blocks|
  {
    if blocks == [] {
      assert events + blocks == events;
    } else {
      var n := |blocks| - 1;
      var all := events + blocks;
      assert all[..|all| - 1] == events + blocks[..n] && all[|all| - 1] == blocks[n];
      BlocksGiveNothing(params, events, blocks[..n]);
    }
  }

  /** A proposal that was not submitted as expedited is always settled exactly once. */
  lemma RegularSettles(params: Params, events: seq<Happening>, blocks: seq<Happening>)
    requires params.interval > 0 && Ripe(params, After(params, events), blocks)
    requires forall i {:trigger events[i]} :: 0 <= i < |events| && events[i].Submitted? ==> !events[i].expedited
    ensures SettledOnce(After(params, events + blocks), Given(params, events))
  {
    RegularNeverStrands(params, events);
    RegularNeverStrands(params, events + blocks);
    SettledExactlyOnce(params, events, blocks);
  }

  // ---- thresholds -----------------------------------------------------------------------------

  /** What was promised when voting was opened and when the emergency was raised still holds. */
  ghost predicate Enough(params: Params, r: Record) {
    r.proposal.Some? ==>
      var p := r.proposal.value;
      && (p.status != DepositPeriod ==> MinDepositOf(params, p) <= p.total)
      && (p.emergency ==> params.emergencyMinDeposit <= p.total)
  }

  lemma DepositIsEnough(params: Params, now: int, p: Proposal, d: Deposit)
    requires WellFormed(p)
    requires p.status != DepositPeriod ==> MinDepositOf(params, p) <= p.total
    requires p.emergency ==> params.emergencyMinDeposit <= p.total
    ensures var q := AfterDeposit(params, now, p, d);
            && (q.status != DepositPeriod ==> MinDepositOf(params, q) <= q.total)
            && (q.emergency ==> params.emergencyMinDeposit <= q.total)
  {
    assert p.total <= p.total + d.amount;
  }

  lemma TurnIsEnough(params: Params, now: int, r: Record, t: Tally, executes: bool)
    requires params.minDeposit <= params.expeditedMinDeposit && Sound(r) && Enough(params, r)
    ensures Enough(params, Turn(params, now, r, t, executes))
  {
  }

  lemma EnoughStays(params: Params, r: Record, e: Happening)
    requires params.minDeposit <= params.expeditedMinDeposit && Sound(r) && Enough(params, r)
    ensures Enough(params, Happens(params, r, e))
  {
    hide Acceptable, AfterDeposit, Turn, Settle;
    match e
    case Submitted(now, expedited) =>
    case Deposited(now, d) =>
      if r.proposal.Some? {
        DepositIsEnough(params, now, r.proposal.value, d);
      }
    case Raised(now, who) =>
    case Voted(now, who, choice, valid) =>
    case Cancelled(now, byProposer) =>
    case Block(now, t, executes) => TurnIsEnough(params, now, r, t, executes);
  }

  /** Over any history, a proposal that got past its deposit period holds the minimum deposit of its kind, also after an
      expedited one was converted, and an emergency holds the emergency minimum. */
  lemma {:induction false} ThresholdsMet(params: Params, events: seq<Happening>)
    requires params.minDeposit <= params.expeditedMinDeposit
    ensures Enough(params, After(params, events))
  {
    if events != [] {
      var n := |events| - 1;
      ThresholdsMet(params, events[..n]);
      ThenSound(params, BLANK, events[..n]);
      EnoughStays(params, After(params, events[..n]), events[n]);
    }
  }

  // ---- genesis --------------------------------------------------------------------------------

  datatype Genesis = Genesis(startingId: nat, params: Params, constitution: string, proposals: seq<(nat, Proposal)>,
                             deposits: seq<(nat, map<string, Coins>)>, votes: seq<(nat, map<string, int>)>)

  ghost function MapOf<T>(xs: seq<(nat, T)>): map<nat, T> {
    if xs == [] then map[] else MapOf(xs[..|xs| - 1])[xs[|xs| - 1].0 := xs[|xs| - 1].1]
  }

  ghost predicate Distinct<T>(xs: seq<(nat, T)>) {
    forall i, j :: 0 <= i < j < |xs| ==> xs[i].0 != xs[j].0
  }

  lemma {:induction false} MapOfKeys<T>(xs: seq<(nat, T)>, id: nat)
    ensures id in MapOf(xs) <==> exists i :: 0 <= i < |xs| && xs[i].0 == id
  {
    if xs != [] {
      var init := xs[..|xs| - 1];
      MapOfKeys(init, id);
      if id in MapOf(init) {
        var i :| 0 <= i < |init| && init[i].0 == id;
        assert xs[i].0 == id;
      }
      if i :| 0 <= i < |xs| && xs[i].0 == id {
        assert i < |init| ==> init[i] == xs[i];
      }
    }
  }

  lemma {:induction false} MapOfValues<T>(xs: seq<(nat, T)>, i: nat)
    requires Distinct(xs) && i < |xs|
    ensures xs[i].0 in MapOf(xs) && MapOf(xs)[xs[i].0] == xs[i].1
  {
    if i < |xs| - 1 {
      assert xs[..|xs| - 1][i] == xs[i];
      MapOfValues(xs[..|xs| - 1], i);
    }
  }

  /** Lists a map, as the export's walks do, in some order. */
  method Entries<T>(m: map<nat, T>) returns (xs: seq<(nat, T)>)
    ensures Distinct(xs) && MapOf(xs) == m
  {
    xs := [];
    var todo := m.Keys;
    while todo != {}
      invariant todo <= m.Keys && Distinct(xs) && MapOf(xs) == m - todo
      decreases todo
    {
      var id :| id in todo;
      var x := (id, m[id]);
      assert (xs + [x])[..|xs|] == xs;
      MapOfKeys(xs, id);
      assert forall i :: 0 <= i < |xs| ==> xs[i].0 != id;
      xs := xs + [x];
      todo := todo - {id};
    }
  }

  /** `ExportGenesis`: everything but the queues and the balance, which the bank module exports. */
  method ExportGenesis(k: GovKeeper) returns (data: Genesis)
    ensures data.startingId == k.nextId && data.params == k.params && data.constitution == k.constitution
    ensures Distinct(data.proposals) && MapOf(data.proposals) == k.proposals
    ensures Distinct(data.deposits) && MapOf(data.deposits) == k.deposits
    ensures Distinct(data.votes) && MapOf(data.votes) == k.votes
  {
    var proposals := Entries(k.proposals);
    var deposits := Entries(k.deposits);
    var votes := Entries(k.votes);
    data := Genesis(k.nextId, k.params, k.constitution, proposals, deposits, votes);
  }

  lemma OneMore(m: map<nat, map<string, Coins>>, id: nat, held: map<string, Coins>)
    requires id !in m
    ensures Total(m[id := held]) == Total(m) + Sum(held)
  {
    hide Total, Sum;
    TotalPut(m, id, held);
  }

  /** Stores the deposits and adds them up. */
  method SetDeposits(k: GovKeeper, xs: seq<(nat, map<string, Coins>)>) returns (total: Coins)
    requires Distinct(xs) && k.deposits == map[]
    modifies k`deposits
    ensures k.deposits == MapOf(xs) && total == Total(MapOf(xs))
  {
    hide Total, Sum;
    total := multiset{};
    NoTotal();
    for i := 0 to |xs|
      invariant k.deposits == MapOf(xs[..i]) && total == Total(k.deposits)
    {
      assert xs[..i + 1][..i] == xs[..i];
      MapOfKeys(xs[..i], xs[i].0);
      OneMore(k.deposits, xs[i].0, xs[i].1);
      var more := SumUp(xs[i].1);
      k.deposits := k.deposits[xs[i].0 := xs[i].1];
      total := total + more;
    }
    assert xs[..|xs|] == xs;
  }

  lemma NoTotal()
    ensures Total(map[]) == multiset{}
  {
    assert Sums(map[]) == map[];
  }

  method SetVotes(k: GovKeeper, xs: seq<(nat, map<string, int>)>)
    requires k.votes == map[]
    modifies k`votes
    ensures k.votes == MapOf(xs)
  {
    for i := 0 to |xs|
      invariant k.votes == MapOf(xs[..i])
    {
      assert xs[..i + 1][..i] == xs[..i];
      k.votes := k.votes[xs[i].0 := xs[i].1];
    }
    assert xs[..|xs|] == xs;
  }

  method SetProposals(k: GovKeeper, xs: seq<(nat, Proposal)>)
    requires Consistent(k.Store()) && k.proposals == map[] && Distinct(xs)
    requires forall i {:trigger xs[i]} :: 0 <= i < |xs| ==> WellFormed(xs[i].1)
    modifies k`proposals, k`inactive, k`active, k`emergency, k`emergencyIds, k`votingIds
    ensures Consistent(k.Store()) && k.proposals == MapOf(xs)
  {
    hide Consistent, WellFormed;
    for i := 0 to |xs|
      invariant Consistent(k.Store()) && k.proposals == MapOf(xs[..i])
    {
      assert xs[..i + 1][..i] == xs[..i];
      MapOfKeys(xs[..i], xs[i].0);
      k.Restore(xs[i].0, xs[i].1);
    }
    assert xs[..|xs|] == xs;
  }

  /** `InitGenesis`: stores what was exported and rebuilds every queue from the proposals. The module account must hold
      exactly the deposits; otherwise the chain does not start, here `null`. */
  method InitGenesis(data: Genesis, balance: Coins) returns (k: GovKeeper?)
    requires Distinct(data.proposals) && Distinct(data.deposits)
    requires forall i {:trigger data.proposals[i]} :: 0 <= i < |data.proposals| ==> WellFormed(data.proposals[i].1)
    ensures k != null <==> balance == Total(MapOf(data.deposits))
    ensures k != null ==>
              && fresh(k) && Consistent(k.Store()) && Solvent(k.Store())
              && k.nextId == data.startingId && k.params == data.params && k.constitution == data.constitution
              && k.proposals == MapOf(data.proposals) && k.deposits == MapOf(data.deposits)
              && k.votes == MapOf(data.votes) && k.paid == map[] && k.balance == balance
  {
    hide Consistent, Coherent, WellFormed, Total, MapOf;
    var g := new GovKeeper(balance, data.startingId, data.params, data.constitution);
    ghost var empty := g.Store();
    var total := SetDeposits(g, data.deposits);
    SetVotes(g, data.votes);
    ConsistentIsCoherent(empty);
    SameQueues(empty, g.Store());
    SetProposals(g, data.proposals);
    if balance != total {
      return null;
    }
    k := g;
  }

  lemma ConsistentIsCoherent(g: Gov)
    requires Consistent(g)
    ensures Coherent(g)
  {
  }

  /** Export then import keeps everything stored and rebuilds the queues. It succeeds exactly when the module account
      holds nothing beyond the deposits. Nothing is lost by not exporting the queues, and the whole store is restored,
      exactly when no proposal is stranded; a stranded one returns to the emergency queue. */
  method RoundTrip(k: GovKeeper) returns (h: GovKeeper?)
    requires Coherent(k.Store()) && Solvent(k.Store())
    ensures h != null <==> Extra(k.Store()) == multiset{}
    ensures h != null ==>
              var g := k.Store();
              && fresh(h) && Consistent(h.Store()) && Solvent(h.Store())
              && h.Store() == g.(paid := map[], emergencyIds := EmergencyIds(g.proposals),
                                 emergency := EmergencyOf(g.proposals, EmergencyIds(g.proposals)))
              && (h.Store() == g.(paid := map[]) <==> Consistent(g))
  {
    hide Total;
    var data := ExportGenesis(k);
    forall i {:trigger data.proposals[i]} | 0 <= i < |data.proposals| ensures WellFormed(data.proposals[i].1) {
      MapOfValues(data.proposals, i);
    }
    h := InitGenesis(data, k.balance);
    NothingExtra(k.Store());
  }

  lemma NothingExtra(g: Gov)
    requires Solvent(g)
    ensures Extra(g) == multiset{} <==> g.balance == Total(g.deposits)
  {
    hide Total;
    assert g.balance == Extra(g) + Total(g.deposits);
  }

  /** One coin in the module account that is no deposit, which `ModuleAccountInvariant` allows, and the exported state
      cannot be imported. */
  method SurplusBlocksImport(params: Params) returns (k: GovKeeper, h: GovKeeper?)
    ensures fresh(k) && Consistent(k.Store()) && Solvent(k.Store()) && Extra(k.Store()) == multiset{"init"}
    ensures h == null
  {
    hide Total;
    k := new GovKeeper(multiset{"init"}, 1, params, "");
    NoTotal();
    assert Extra(k.Store()) == multiset{"init"};
    h := RoundTrip(k);
  }
}
